/** What clients are told and when: a pending write is settled exactly when its node's log and commit index decide
    it, an answer never changes, and a read answers with the last committed value. */
module RaftSettling {
  import opened RaftReducer
  import opened RaftLocal
  import opened RaftCluster
  import opened RaftSafety

  /** The write's own entry is in its slot. */
  ghost predicate There(row: Row, log: seq<Entry>)
    requires row.index.Some?
  {
    1 <= row.index.value <= |log| && log[row.index.value - 1].tag == row.id
  }

  ghost predicate Waits(row: Row) {
    row.isWrite && row.outcome == Pending
  }

  /** A waiting write is in a slot of the log that is not committed yet. */
  ghost predicate InLog(row: Row, log: seq<Entry>, commitIndex: nat) {
    row.index.Some? && commitIndex < row.index.value <= |log|
  }

  ghost predicate WaitsInLog(n: Node) {
    forall p :: 0 <= p < |n.history| && Waits(n.history[p]) ==> InLog(n.history[p], n.log, n.commitIndex)
  }

  /** What has become of a row: a waiting write is ok once its entry is committed, lost once its slot is committed
      without it or gone, and waits otherwise; any other row is as it was. */
  ghost predicate Answered(was: Row, row: Row, log: seq<Entry>, commitIndex: nat, now: int) {
    if !Waits(was) then row == was
    else
      && was.index.Some?
      && row == was.(outcome := row.outcome, respondedAt := row.respondedAt)
      && row.respondedAt == (if row.outcome == Pending then was.respondedAt else Some(now))
      && (row.outcome == Ok <==> There(was, log) && commitIndex >= was.index.value)
      && (row.outcome == Lost <==> !There(was, log) && (commitIndex >= was.index.value || was.index.value > |log|))
      && (row.outcome == Pending <==> commitIndex < was.index.value <= |log|)
  }

  /** The rows an event leaves of those there were. */
  ghost predicate AllAnswered(s: Node, n: Node, now: int) {
    |s.history| <= |n.history| && forall p :: 0 <= p < |s.history| ==> Answered(s.history[p], n.history[p], n.log, n.commitIndex, now)
  }

  lemma SettleAnswers(row: Row, log: seq<Entry>, commitIndex: nat, now: int)
    requires Waits(row) ==> row.index.Some? && row.index.value >= 1
    ensures Answered(row, SettleRow(row, log, commitIndex, now), log, commitIndex, now)
  {
  }

  /** Applying settles every row against the log and commit index it finds. */
  lemma ApplyAnswers(s: Node, a: Node, now: int)
    requires a.commitIndex <= |a.log| || a.commitIndex <= a.lastApplied
    requires a.history == s.history && WaitsInLog(s)
    ensures AllAnswered(s, ApplyAndSettle(a, now), now) && WaitsInLog(ApplyAndSettle(a, now))
    ensures |ApplyAndSettle(a, now).history| == |s.history|
  {
    var n := ApplyAndSettle(a, now);
    forall p | 0 <= p < |s.history| ensures Answered(s.history[p], n.history[p], n.log, n.commitIndex, now) {
      assert Waits(s.history[p]) ==> InLog(s.history[p], s.log, s.commitIndex);
      SettleAnswers(s.history[p], a.log, a.commitIndex, now);
    }
    forall p | 0 <= p < |n.history| && Waits(n.history[p]) ensures InLog(n.history[p], n.log, n.commitIndex) {
      assert Answered(s.history[p], n.history[p], n.log, n.commitIndex, now);
    }
  }

  /** Where neither the commit index nor a slot of the log is lost, waiting writes go on waiting. */
  lemma SameAnswers(s: Node, n: Node, now: int)
    requires WaitsInLog(s) && n.history == s.history && n.commitIndex == s.commitIndex && |n.log| >= |s.log|
    ensures AllAnswered(s, n, now) && WaitsInLog(n)
  {
    forall p | 0 <= p < |s.history| ensures Answered(s.history[p], n.history[p], n.log, n.commitIndex, now) {
      assert Waits(s.history[p]) ==> InLog(s.history[p], s.log, s.commitIndex);
    }
  }

  lemma AppendAnswers(s: Node, p: Msg, from: NodeId, now: int)
    requires p.Append? && Valid(s) && WaitsInLog(s)
    ensures var n := OnAppend(s, p, from, now).node; AllAnswered(s, n, now) && WaitsInLog(n) && |n.history| == |s.history|
  {
    if p.term < s.term || !PrevOk(s.log, p.prevIndex, p.prevTerm) {
      SameAnswers(s, OnAppend(s, p, from, now).node, now);
    } else {
      AcceptAnswers(s, ArmElection(s.(role := Follower)).node, p, now);
    }
  }

  lemma AcceptAnswers(s: Node, a: Node, p: Msg, now: int)
    requires p.Append? && Valid(a) && p.prevIndex <= |a.log| && a.history == s.history && WaitsInLog(s)
    ensures var n := Accepting(a, p, now); AllAnswered(s, n, now) && WaitsInLog(n) && |n.history| == |s.history|
  {
    var log := MergeLog(a.log, p.prevIndex, p.entries);
    var commitIndex := if p.leaderCommit > a.commitIndex then Min(p.leaderCommit, |log|) else a.commitIndex;
    ApplyAnswers(s, a.(log := log, commitIndex := commitIndex), now);
  }

  lemma RespAnswers(s: Node, p: Msg, from: NodeId, now: int)
    requires p.AppendResp? && Valid(s) && Plausible(s, Message(from, p)) && WaitsInLog(s)
    ensures var n := OnAppendResp(s, p, from, now).node; AllAnswered(s, n, now) && WaitsInLog(n) && |n.history| == |s.history|
  {
    if s.role == Leader && p.term == s.term && p.ok {
      var a := Acked(s, from, p.matchIndex);
      ApplyAnswers(s, a.(commitIndex := AdvanceCommit(a)), now);
    } else {
      SameAnswers(s, OnAppendResp(s, p, from, now).node, now);
    }
  }

  lemma MessageAnswers(s: Node, p: Msg, from: NodeId, now: int)
    requires Valid(s) && Plausible(s, Message(from, p)) && WaitsInLog(s)
    ensures var n := OnMessage(s, p, from, now).node; AllAnswered(s, n, now) && WaitsInLog(n) && |n.history| == |s.history|
  {
    match p
    case ReqVote(_, _, _) => SameAnswers(s, OnReqVote(s, p, from).node, now);
    case Vote(_, _) => SameAnswers(s, OnVote(s, p, from).node, now);
    case Append(_, _, _, _, _) => AppendAnswers(s, p, from, now);
    case AppendResp(_, _, _) => RespAnswers(s, p, from, now);
  }

  lemma DeliverAnswers(s: Node, p: Msg, from: NodeId, now: int)
    requires Valid(s) && Plausible(s, Message(from, p)) && WaitsInLog(s)
    ensures var n := Deliver(s, p, from, now).node; AllAnswered(s, n, now) && WaitsInLog(n) && |n.history| == |s.history|
  {
    var a := if p.term > s.term then AdoptTerm(s, p.term).node else s;
    SameAnswers(s, a, now);
    MessageAnswers(a, p, from, now);
  }

  // ---------- new rows ----------

  /** The row a client operation adds: another node redirects; a leader reads its register, or logs the write under
      the row's own identity and leaves it waiting. */
  ghost predicate Asked(s: Node, n: Node, op: Command, now: int, row: Row) {
    && row.id == OpId(s.id, s.historyN + 1) && row.isWrite == op.Write? && row.invokedAt == now
    && (s.role != Leader ==> row.outcome == Redirect && row.respondedAt == Some(now) && n.log == s.log)
    && (s.role == Leader && op.Read? ==> row.outcome == Ok && row.respondedAt == Some(now) && row.value == Some(s.kv) && n.log == s.log)
    && (s.role == Leader && op.Write? ==>
          && row.outcome == Pending && row.respondedAt == None && row.value == Some(op.value)
          && row.index == Some(|n.log|) && n.log == s.log + [Entry(s.term, op.value, row.id)])
  }

  /** A client operation adds one row, and takes neither a slot nor a commit back. */
  ghost predicate OneRow(s: Node, op: Command, now: int, n: Node) {
    && |n.history| == |s.history| + 1 && n.history[..|s.history|] == s.history
    && n.commitIndex == s.commitIndex && |n.log| >= |s.log|
    && Asked(s, n, op, now, n.history[|s.history|])
  }

  lemma AppendedRow(s: Node, value: int, now: int)
    requires s.role == Leader
    ensures OneRow(s, Write(value), now, Appended(s, value, now))
  {
  }

  lemma AnsweredRow(s: Node, op: Command, now: int, n: Node, row: Row)
    requires n == s.(historyN := s.historyN + 1, history := s.history + [row])
    requires Asked(s, n, op, now, row)
    ensures OneRow(s, op, now, n)
  {
  }

  lemma ClientAsked(s: Node, op: Command, now: int)
    requires Valid(s)
    ensures OneRow(s, op, now, OnClient(s, op, now).node)
  {
    var n := OnClient(s, op, now).node;
    if s.role == Leader && op.Write? {
      AppendedRow(s, op.value, now);
    } else {
      AnsweredRow(s, op, now, n, n.history[|s.history|]);
    }
  }

  lemma ClientAnswers(s: Node, n: Node, op: Command, now: int)
    requires WaitsInLog(s) && s.commitIndex <= |s.log|
    requires OneRow(s, op, now, n)
    ensures AllAnswered(s, n, now) && WaitsInLog(n)
  {
    forall p | 0 <= p < |s.history| ensures Answered(s.history[p], n.history[p], n.log, n.commitIndex, now) {
      assert n.history[..|s.history|][p] == n.history[p];
      assert Waits(s.history[p]) ==> InLog(s.history[p], s.log, s.commitIndex);
    }
    forall p | 0 <= p < |n.history| && Waits(n.history[p]) ensures InLog(n.history[p], n.log, n.commitIndex) {
      if p < |s.history| { assert Answered(s.history[p], n.history[p], n.log, n.commitIndex, now); }
    }
  }

  // ---------- any event ----------

  /** What an event does to the rows of its node. */
  ghost predicate Rows(s: Node, ev: Event, n: Node, now: int) {
    && AllAnswered(s, n, now) && WaitsInLog(n)
    && (if ev.Fire? && ev.timer.ClientTimer?
        then |n.history| == |s.history| + 1 && Asked(s, n, ev.timer.op, now, n.history[|s.history|])
        else |n.history| == |s.history|)
  }

  lemma ReduceRows(s: Node, ev: Event, now: int)
    requires Valid(s) && Plausible(s, ev) && WaitsInLog(s) && s.commitIndex <= |s.log|
    ensures Rows(s, ev, Reduce(s, ev, now).node, now)
  {
    match ev
    case Init => SameAnswers(s, Reduce(s, ev, now).node, now);
    case External(op) => SameAnswers(s, Reduce(s, ev, now).node, now);
    case Message(from, msg) => DeliverAnswers(s, msg, from, now);
    case Fire(timer) =>
      if timer.ClientTimer? {
        ClientAsked(s, timer.op, now);
        ClientAnswers(s, OnClient(s, timer.op, now).node, timer.op, now);
      } else {
        SameAnswers(s, OnTimer(s, timer, now).node, now);
      }
  }

  // ---------- runs ----------

  lemma StepRows(c: Cluster, a: Action, c2: Cluster, m: NodeId)
    requires Step(c, a, c2) && m in c.nodes && m in c2.nodes && WaitsInLog(c.nodes[m])
    requires c.nodes[m].commitIndex <= |c.nodes[m].log|
    ensures if m == Target(a) then Rows(c.nodes[m], EventOf(a), c2.nodes[m], c2.now) else c2.nodes[m] == c.nodes[m]
  {
    if m == Target(a) { ReduceRows(c.nodes[m], EventOf(a), c2.now); }
  }

  ghost predicate NodeWaits(c: Cluster, m: NodeId) {
    m in c.nodes && WaitsInLog(c.nodes[m])
  }

  ghost predicate AllWait(c: Cluster) {
    forall m :: NodeWaits(c, m)
  }

  ghost predicate Passes(run: seq<Cluster>, i: nat)
    requires i + 1 < |run|
  {
    AllWait(run[i]) ==> AllWait(run[i + 1])
  }

  lemma NextWaits(run: seq<Cluster>, acts: seq<Action>, i: nat)
    requires IsRun(run, acts) && i < |acts|
    ensures Passes(run, i)
  {
    assert Step(run[i], acts[i], run[i + 1]);
    if AllWait(run[i]) {
      var c := run[i + 1];
      forall m ensures NodeWaits(c, m) {
        assert NodeWaits(run[i], m);
        AppliedRegister(run, acts, i, m);
        StepRows(run[i], acts[i], c, m);
      }
    }
  }

  lemma {:induction false} Climbs(run: seq<Cluster>, i: nat)
    requires i < |run| && AllWait(run[0]) && forall k {:trigger Passes(run, k)} :: 0 <= k < i ==> Passes(run, k)
    ensures AllWait(run[i])
  {
    if i > 0 {
      Climbs(run, i - 1);
      assert Passes(run, i - 1);
    }
  }

  lemma StartWaits(run: seq<Cluster>, acts: seq<Action>)
    requires IsRun(run, acts)
    ensures AllWait(run[0])
  {
    forall m ensures NodeWaits(run[0], m) { assert run[0].nodes[m] == InitNode(m); }
  }

  lemma AlwaysWait(run: seq<Cluster>, acts: seq<Action>, i: nat)
    requires IsRun(run, acts) && i < |run|
    ensures AllWait(run[i])
  {
    StartWaits(run, acts);
    forall k | 0 <= k < i ensures Passes(run, k) { NextWaits(run, acts, k); }
    Climbs(run, i);
  }

  /** In every reachable state a write that is still pending is in a slot of its node's log past the commit index. */
  lemma PendingInLog(run: seq<Cluster>, acts: seq<Action>, i: nat, m: NodeId, row: Row)
    requires IsRun(run, acts) && i < |run| && m in run[i].nodes
    requires row in run[i].nodes[m].history && row.isWrite && row.outcome == Pending
    ensures row.index.Some? && run[i].nodes[m].commitIndex < row.index.value <= |run[i].nodes[m].log|
  {
    AlwaysWait(run, acts, i);
    assert NodeWaits(run[i], m);
    var p :| 0 <= p < |run[i].nodes[m].history| && run[i].nodes[m].history[p] == row;
    assert Waits(run[i].nodes[m].history[p]);
  }

  /** Every step of a run answers every row exactly as the log and commit index it leaves decide: a pending write ok
      if and only if its entry is there and committed, lost if and only if it is not there and its slot is committed
      or gone, and otherwise not yet; and an answer once given stays. */
  lemma RowsAnswered(run: seq<Cluster>, acts: seq<Action>, i: nat, m: NodeId, p: nat)
    requires IsRun(run, acts) && i < |acts| && m in run[i].nodes && m in run[i + 1].nodes && p < |run[i].nodes[m].history|
    ensures p < |run[i + 1].nodes[m].history|
    ensures var n := run[i + 1].nodes[m];
      Answered(run[i].nodes[m].history[p], n.history[p], n.log, n.commitIndex, run[i + 1].now)
  {
    RowsAt(run, acts, i, m);
    if m != Target(acts[i]) { SameAnswers(run[i].nodes[m], run[i + 1].nodes[m], run[i + 1].now); }
  }

  lemma RowsAt(run: seq<Cluster>, acts: seq<Action>, i: nat, m: NodeId)
    requires IsRun(run, acts) && i < |acts| && m in run[i].nodes && m in run[i + 1].nodes
    ensures WaitsInLog(run[i].nodes[m])
    ensures if m == Target(acts[i]) then Rows(run[i].nodes[m], EventOf(acts[i]), run[i + 1].nodes[m], run[i + 1].now)
            else run[i + 1].nodes[m] == run[i].nodes[m]
  {
    AlwaysWait(run, acts, i);
    assert NodeWaits(run[i], m);
    AppliedRegister(run, acts, i, m);
    assert Step(run[i], acts[i], run[i + 1]);
    StepRows(run[i], acts[i], run[i + 1], m);
  }

  /** A read that a leader answers carries the value of the last entry it has committed by then. */
  lemma ReadsCommitted(run: seq<Cluster>, acts: seq<Action>, i: nat, m: NodeId, p: nat)
    requires IsRun(run, acts) && i < |acts| && m in run[i].nodes && m in run[i + 1].nodes
    requires |run[i].nodes[m].history| <= p < |run[i + 1].nodes[m].history|
    requires !run[i + 1].nodes[m].history[p].isWrite && run[i + 1].nodes[m].history[p].outcome == Ok
    ensures var s := run[i].nodes[m];
      && s.role == Leader && s.commitIndex <= |s.log|
      && run[i + 1].nodes[m].history[p].value == Some(if s.commitIndex == 0 then 0 else s.log[s.commitIndex - 1].value)
  {
    RowsAt(run, acts, i, m);
    AppliedRegister(run, acts, i, m);
  }

  /** Rows come of client operations alone, one each: another node redirects, a leader answers a read from its register
      and logs a write under the row's identity, at the index the row names. */
  lemma OperationsAsked(run: seq<Cluster>, acts: seq<Action>, i: nat, m: NodeId)
    requires IsRun(run, acts) && i < |acts| && m in run[i].nodes && m in run[i + 1].nodes
    ensures var s, n := run[i].nodes[m], run[i + 1].nodes[m];
      if m == Target(acts[i]) && acts[i].Tick? && EventOf(acts[i]).timer.ClientTimer?
      then |n.history| == |s.history| + 1 && Asked(s, n, EventOf(acts[i]).timer.op, run[i + 1].now, n.history[|s.history|])
      else |n.history| == |s.history|
  {
    RowsAt(run, acts, i, m);
  }
}
