/** Which schedules show write skew at the snapshot level. */
module TxnSkew {
  import opened TxnEngine
  import opened TxnSnapshot
  import opened TxnLosses

  // ---------- what a schedule reads and writes ----------

  /** The operation makes a read of the key known: an increment reads it unless an earlier read stands for it. */
  predicate ReadsOf(op: Op, k: string) {
    op == Read(k) || (op.Ensure? && k in op.keys) || (op.Write? && op.key == k && op.value.Inc?)
  }

  predicate WritesOf(op: Op, k: string) { op.Write? && op.key == k }

  /** Among the first n steps is one where x, still live, reads the key. */
  ghost predicate HasRead(initial: seq<(string, int)>, steps: seq<Step>, n: nat, x: TxnId, k: string)
    requires n <= |steps|
  {
    exists i :: 0 <= i < n && ReadsAt(initial, steps, i, x, k)
  }

  ghost predicate ReadsAt(initial: seq<(string, int)>, steps: seq<Step>, i: nat, x: TxnId, k: string)
    requires i < |steps|
  {
    steps[i].txn == x && ReadsOf(steps[i].op, k) && !Done(At(initial, steps, i), x)
  }

  ghost predicate HasWritten(initial: seq<(string, int)>, steps: seq<Step>, n: nat, x: TxnId, k: string)
    requires n <= |steps|
  {
    exists i :: 0 <= i < n && WritesAt(initial, steps, i, x, k)
  }

  ghost predicate WritesAt(initial: seq<(string, int)>, steps: seq<Step>, i: nat, x: TxnId, k: string)
    requires i < |steps|
  {
    steps[i].txn == x && WritesOf(steps[i].op, k) && !Done(At(initial, steps, i), x)
  }

  predicate Logged(log: seq<ReadRecord>, k: string) {
    exists i :: 0 <= i < |log| && log[i].key == k
  }

  lemma LoggedMore(log: seq<ReadRecord>, r: ReadRecord, k: string)
    ensures Logged(log + [r], k) <==> Logged(log, k) || r.key == k
  {
    var more := log + [r];
    if r.key == k { assert more[|log|].key == k; }
    if Logged(log, k) {
      var i :| 0 <= i < |log| && log[i].key == k;
      assert more[i].key == k;
    }
  }

  lemma {:induction false} LastReadLogged(log: seq<ReadRecord>, k: string)
    ensures TxnEngine.LastRead(log, k).Some? <==> Logged(log, k)
  {
    if log != [] {
      var front, r := log[..|log| - 1], log[|log| - 1];
      LastReadLogged(front, k);
      LoggedMore(front, r, k);
      assert log == front + [r];
    }
  }

  lemma {:induction false} ReadAllLogs(s: Node, x: TxnId, keys: seq<string>, k: string)
    ensures var r := ReadAll(s, x, keys).0;
      && (Logged(Info(r, x).readLog, k) <==> Logged(Info(s, x).readLog, k) || k in keys)
      && Info(r, x).writes == Info(s, x).writes
  {
    if keys != [] {
      var front, key := keys[..|keys| - 1], keys[|keys| - 1];
      ReadAllLogs(s, x, front, k);
      var r := ReadAll(s, x, front).0;
      LoggedMore(Info(r, x).readLog, Recorded(key, PickVersion(r, x, key)), k);
      assert k in keys <==> k in front || k == key;
    }
  }

  lemma WriteLogs(s: Node, x: TxnId, key: string, value: WriteValue, k: string)
    ensures var r := DoWrite(s, x, key, value);
      && (Logged(Info(r, x).readLog, k) <==> Logged(Info(s, x).readLog, k) || (k == key && value.Inc?))
      && (k in Info(r, x).writes <==> k in Info(s, x).writes || k == key)
  {
    LastReadLogged(Info(s, x).readLog, key);
    LoggedMore(Info(s, x).readLog, Recorded(key, PickVersion(s, x, key)), k);
  }

  /** What one step of a live transaction adds to its reads and writes. */
  lemma StepTouches(s: Node, step: Step, k: string)
    requires s.level == SI && !Done(s, step.txn)
    ensures var x, r := step.txn, RunStep(s, step);
      && (Logged(Info(r, x).readLog, k) <==> Logged(Info(s, x).readLog, k) || ReadsOf(step.op, k))
      && (k in Info(r, x).writes <==> k in Info(s, x).writes || WritesOf(step.op, k))
  {
    var x := step.txn;
    match step.op {
      case Read(key) => { LoggedMore(Info(s, x).readLog, Recorded(key, PickVersion(s, x, key)), k); }
      case Write(key, value) => { WriteLogs(s, x, key, value, k); }
      case Ensure(keys, atLeast) => { ReadAllLogs(s, x, keys, k); }
      case _ => {}
    }
  }

  lemma {:induction false} TouchedAre(initial: seq<(string, int)>, steps: seq<Step>, n: nat, x: TxnId, k: string)
    requires n <= |steps|
    ensures Logged(Info(At(initial, steps, n), x).readLog, k) <==> HasRead(initial, steps, n, x, k)
    ensures k in Info(At(initial, steps, n), x).writes <==> HasWritten(initial, steps, n, x, k)
  {
    if n > 0 {
      TouchedAre(initial, steps, n - 1, x, k);
      Touches(initial, steps, n - 1, x, k);
      OneMore(initial, steps, n - 1, x, k);
    }
  }

  lemma Touches(initial: seq<(string, int)>, steps: seq<Step>, n: nat, x: TxnId, k: string)
    requires n < |steps|
    ensures var i, j := Info(At(initial, steps, n), x), Info(At(initial, steps, n + 1), x);
      && (Logged(j.readLog, k) <==> Logged(i.readLog, k) || ReadsAt(initial, steps, n, x, k))
      && (k in j.writes <==> k in i.writes || WritesAt(initial, steps, n, x, k))
  {
    var s := At(initial, steps, n);
    Steps(initial, steps, n);
    if steps[n].txn == x {
      if Done(s, x) { SkipKeeps(s, steps[n]); } else { StepTouches(s, steps[n], k); }
    }
  }

  lemma OneMore(initial: seq<(string, int)>, steps: seq<Step>, n: nat, x: TxnId, k: string)
    requires n < |steps|
    ensures HasRead(initial, steps, n + 1, x, k) <==> HasRead(initial, steps, n, x, k) || ReadsAt(initial, steps, n, x, k)
    ensures HasWritten(initial, steps, n + 1, x, k) <==> HasWritten(initial, steps, n, x, k) || WritesAt(initial, steps, n, x, k)
  {
  }

  // ---------- began and snapshot ----------

  lemma StepBegan(s: Node, step: Step)
    requires s.level == SI && Info(s, step.txn).beganAt == Info(s, step.txn).snapshotAt
    ensures Info(RunStep(s, step), step.txn).beganAt == Info(RunStep(s, step), step.txn).snapshotAt
  {
    if step.op.Ensure? && !Done(s, step.txn) { ReadAllFrame(s, step.txn, step.op.keys); }
  }

  lemma {:induction false} BeganIs(initial: seq<(string, int)>, steps: seq<Step>, n: nat, x: TxnId)
    requires n <= |steps|
    ensures Info(At(initial, steps, n), x).beganAt == Info(At(initial, steps, n), x).snapshotAt
  {
    if n > 0 {
      BeganIs(initial, steps, n - 1, x);
      Steps(initial, steps, n - 1);
      if steps[n - 1].txn == x { StepBegan(At(initial, steps, n - 1), steps[n - 1]); }
    }
  }

  // ---------- one commit ----------

  /** The two wrote apart, each wrote something, and each read something that the other wrote. */
  ghost predicate Crossed(a: TxnInfo, b: TxnInfo) {
    && a.writes != [] && b.writes != [] && (forall k :: k in a.writes ==> k !in b.writes)
    && (exists k :: k in b.writes && Logged(a.readLog, k)) && (exists k :: k in a.writes && Logged(b.readLog, k))
  }

  lemma ReadsAre(i: TxnInfo, writes: seq<string>)
    ensures TxnEngine.Reads(i, writes) <==> exists k :: k in writes && Logged(i.readLog, k)
  {
    if TxnEngine.Reads(i, writes) {
      var j :| 0 <= j < |i.readLog| && i.readLog[j].key in writes;
      assert Logged(i.readLog, i.readLog[j].key);
    }
  }

  /** x can be caught in skew by committing now: the other has committed since x began, and they crossed. */
  ghost predicate Caught(s: Node, x: TxnId) {
    var a, b := Info(s, x), Info(s, Other(x));
    && b.status == Committed && b.endedAt.Some? && a.beganAt.Some? && b.beganAt.Some? && a.beganAt.value < b.endedAt.value
    && Crossed(a, b)
  }

  lemma {:induction false} LostOnly(s: Node, x: TxnId, writes: seq<string>, a: Anomaly)
    requires a.WriteSkew?
    ensures a !in LostUpdates(s, x, writes)
  {
    if writes != [] { LostOnly(s, x, writes[..|writes| - 1], a); }
  }

  lemma SealSkews(s: Node, x: TxnId)
    requires Snapped(s) && !Done(s, x) && Info(s, Other(x)).beganAt == Info(s, Other(x)).snapshotAt
    ensures Skewed(Info(Seal(s, x), x), Info(Seal(s, x), Other(x))) <==> Caught(s, x)
  {
    var a, b := Info(s, x), Info(s, Other(x));
    ReadsAre(a, b.writes);
    ReadsAre(b, a.writes);
    ReadsAre(Info(Seal(s, x), x), b.writes);
    assert InTime(b, s.clock);
  }

  /** Writing apart, the two cannot conflict. */
  lemma ApartCommits(s: Node, x: TxnId)
    requires Snapped(s) && forall k :: k in Info(s, x).writes ==> k !in Info(s, Other(x)).writes
    ensures Conflict(s, x, Info(s, x).writes, SnapOf(Info(s, x))) == None
  {
    var snap := SnapOf(Info(s, x));
    ConflictIs(s, x, Info(s, x).writes, snap);
    forall k | k in Info(s, x).writes ensures !NewerThan(x, Chain(s.store, k), snap) {
      assert KeyOk(s, k);
      NewerIs(s, x, k, snap);
    }
  }

  /** A commit at the snapshot level records write skew exactly when it is caught. */
  lemma CommitSkews(s: Node, x: TxnId, a: Anomaly)
    requires Snapped(s) && !Done(s, x) && a.WriteSkew? && Info(s, Other(x)).beganAt == Info(s, Other(x)).snapshotAt
    ensures a in DoCommit(s, x).anomalies <==>
      a in s.anomalies || (a == WriteSkew(x, Other(x), s.clock + 1) && Caught(s, x))
  {
    var r := Seal(s, x);
    SealSkews(s, x);
    LostOnly(r, x, Info(r, x).writes, a);
    if Caught(s, x) { ApartCommits(s, x); }
  }

  // ---------- schedules ----------

  /** At step c, x commits; the other committed at step j, after the last begin of x before c and its own; they wrote
      different keys, each at least one; and each has read a key that the other wrote. */
  ghost predicate SkewsWith(initial: seq<(string, int)>, steps: seq<Step>, c: nat, x: TxnId, j: nat)
    requires j < c < |steps|
  {
    var y := Other(x);
    && steps[c] == Step(x, Commit) && !Done(At(initial, steps, c), x)
    && steps[j] == Step(y, Commit) && !Done(At(initial, steps, j), y)
    && Begins(steps, x, 0, j) && !Begins(steps, x, j, c) && Begins(steps, y, 0, j)
    && (exists k :: HasWritten(initial, steps, c, x, k)) && (exists k :: HasWritten(initial, steps, j, y, k))
    && (forall k :: HasWritten(initial, steps, c, x, k) ==> !HasWritten(initial, steps, j, y, k))
    && (exists k :: HasRead(initial, steps, c, x, k) && HasWritten(initial, steps, j, y, k))
    && (exists k :: HasRead(initial, steps, j, y, k) && HasWritten(initial, steps, c, x, k))
  }

  ghost predicate SkewsAs(initial: seq<(string, int)>, steps: seq<Step>, c: nat, a: Anomaly)
    requires c < |steps| && a.WriteSkew?
  {
    && a.other == Other(a.who) && a.at == At(initial, steps, c).clock + 1
    && exists j: nat :: j < c && SkewsWith(initial, steps, c, a.who, j)
  }

  /** The step at which a transaction committed. */
  lemma {:induction false} CommitAt(initial: seq<(string, int)>, steps: seq<Step>, n: nat, y: TxnId) returns (j: nat)
    requires n <= |steps| && Info(At(initial, steps, n), y).status == Committed
    ensures j < n && steps[j] == Step(y, Commit) && !Done(At(initial, steps, j), y)
  {
    assert n > 0;
    Steps(initial, steps, n - 1);
    var s := At(initial, steps, n - 1);
    if Info(s, y).status == Committed {
      if steps[n - 1].txn == y { SkipKeeps(s, steps[n - 1]); }
      j := CommitAt(initial, steps, n - 1, y);
    } else {
      j := n - 1;
      CommitsBy(s, steps[n - 1], y);
    }
  }

  lemma CommitsBy(s: Node, step: Step, y: TxnId)
    requires s.level == SI && Info(s, y).status != Committed && Info(RunStep(s, step), y).status == Committed
    requires Info(RunStep(s, step), Other(step.txn)) == Info(s, Other(step.txn))
    ensures step == Step(y, Commit) && !Done(s, y)
  {
    if step.txn == y && !Done(s, y) { LiveUnlessCommit(s, step); }
  }

  /** What a transaction that commits at step j, while the other is live, is from then on. */
  lemma EndIs(initial: seq<(string, int)>, steps: seq<Step>, j: nat, c: nat, y: TxnId)
    requires j < c <= |steps| && steps[j] == Step(y, Commit) && !Done(At(initial, steps, j), y)
    requires !Done(At(initial, steps, c), Other(y))
    ensures var s := At(initial, steps, j);
      && At(initial, steps, j + 1).clock == s.clock + 1
      && Info(At(initial, steps, c), y) == Info(s, y).(status := Committed, endedAt := Some(s.clock + 1))
  {
    if Done(At(initial, steps, j), Other(y)) { DoneStays(initial, steps, j, c, Other(y)); }
    Steps(initial, steps, j);
    CommitsAlone(At(initial, steps, j), y);
    DoneStays(initial, steps, j + 1, c, y);
  }

  /** Whether x began before the other's commit: its last begin is older. */
  lemma BeganBefore(initial: seq<(string, int)>, steps: seq<Step>, j: nat, c: nat, x: TxnId)
    requires j < c <= |steps| && steps[j] == Step(Other(x), Commit) && !Done(At(initial, steps, j), Other(x))
    requires !Done(At(initial, steps, c), x)
    ensures var i := Info(At(initial, steps, c), x);
      i.beganAt.Some? && i.beganAt.value < At(initial, steps, j).clock + 1 <==> Begins(steps, x, 0, j) && !Begins(steps, x, j, c)
    ensures Info(At(initial, steps, j), Other(x)).beganAt.Some? <==> Begins(steps, Other(x), 0, j)
  {
    if Done(At(initial, steps, j), x) { DoneStays(initial, steps, j, c, x); }
    EndIs(initial, steps, j, c, Other(x));
    BeganIs(initial, steps, c, x);
    BeganIs(initial, steps, j, x);
    BeganIs(initial, steps, j, Other(x));
    SnapshotSince(initial, steps, j, c, x);
    SnapshotIs(initial, steps, j, x);
    SnapshotIs(initial, steps, j, Other(x));
    AllSnapped(initial, steps, j);
    assert InTime(Info(At(initial, steps, j), x), At(initial, steps, j).clock);
  }

  /** The reads and writes of the two when x commits. */
  lemma CrossedIs(initial: seq<(string, int)>, steps: seq<Step>, j: nat, c: nat, x: TxnId)
    requires j < c <= |steps| && steps[j] == Step(Other(x), Commit) && !Done(At(initial, steps, j), Other(x))
    requires !Done(At(initial, steps, c), x)
    ensures Crossed(Info(At(initial, steps, c), x), Info(At(initial, steps, c), Other(x))) <==>
      && (exists k :: HasWritten(initial, steps, c, x, k)) && (exists k :: HasWritten(initial, steps, j, Other(x), k))
      && (forall k :: HasWritten(initial, steps, c, x, k) ==> !HasWritten(initial, steps, j, Other(x), k))
      && (exists k :: HasRead(initial, steps, c, x, k) && HasWritten(initial, steps, j, Other(x), k))
      && (exists k :: HasRead(initial, steps, j, Other(x), k) && HasWritten(initial, steps, c, x, k))
  {
    var y := Other(x);
    var a, b := Info(At(initial, steps, c), x), Info(At(initial, steps, c), y);
    EndIs(initial, steps, j, c, y);
    forall k
      ensures Logged(a.readLog, k) <==> HasRead(initial, steps, c, x, k)
      ensures k in a.writes <==> HasWritten(initial, steps, c, x, k)
      ensures Logged(b.readLog, k) <==> HasRead(initial, steps, j, y, k)
      ensures k in b.writes <==> HasWritten(initial, steps, j, y, k)
    {
      TouchedAre(initial, steps, c, x, k);
      TouchedAre(initial, steps, j, y, k);
    }
    if a.writes != [] { assert a.writes[0] in a.writes; }
    if b.writes != [] { assert b.writes[0] in b.writes; }
  }

  lemma CaughtIs(initial: seq<(string, int)>, steps: seq<Step>, c: nat, x: TxnId)
    requires c < |steps| && steps[c] == Step(x, Commit) && !Done(At(initial, steps, c), x)
    ensures Caught(At(initial, steps, c), x) <==> exists j: nat :: j < c && SkewsWith(initial, steps, c, x, j)
  {
    var s, y := At(initial, steps, c), Other(x);
    if Caught(s, x) {
      var j := CommitAt(initial, steps, c, y);
      EndIs(initial, steps, j, c, y);
      BeganBefore(initial, steps, j, c, x);
      CrossedIs(initial, steps, j, c, x);
      assert SkewsWith(initial, steps, c, x, j);
    }
    if j: nat :| j < c && SkewsWith(initial, steps, c, x, j) {
      EndIs(initial, steps, j, c, y);
      BeganBefore(initial, steps, j, c, x);
      CrossedIs(initial, steps, j, c, x);
    }
  }

  lemma {:induction false} ReadAllSkews(s: Node, x: TxnId, keys: seq<string>, a: Anomaly)
    requires a.WriteSkew?
    ensures a in ReadAll(s, x, keys).0.anomalies <==> a in s.anomalies
  {
    if keys != [] { ReadAllSkews(s, x, keys[..|keys| - 1], a); }
  }

  lemma QuietSkews(s: Node, step: Step, a: Anomaly)
    requires s.level == SI && a.WriteSkew? && (Done(s, step.txn) || step.op != Commit)
    ensures a in RunStep(s, step).anomalies <==> a in s.anomalies
  {
    if step.op.Ensure? { ReadAllSkews(s, step.txn, step.op.keys, a); }
  }

  lemma StepSkews(initial: seq<(string, int)>, steps: seq<Step>, n: nat, a: Anomaly)
    requires n < |steps| && a.WriteSkew?
    ensures a in At(initial, steps, n + 1).anomalies <==> a in At(initial, steps, n).anomalies || SkewsAs(initial, steps, n, a)
  {
    var s, x := At(initial, steps, n), steps[n].txn;
    Steps(initial, steps, n);
    if Done(s, x) || steps[n].op != Commit {
      QuietSkews(s, steps[n], a);
    } else {
      BeganIs(initial, steps, n, Other(x));
      CommitSkews(s, x, a);
      CaughtIs(initial, steps, n, x);
    }
  }

  ghost predicate SomeSkews(initial: seq<(string, int)>, steps: seq<Step>, n: nat, a: Anomaly)
    requires n <= |steps| && a.WriteSkew?
  {
    exists c: nat :: c < n && SkewsAs(initial, steps, c, a)
  }

  lemma OneMoreSkews(initial: seq<(string, int)>, steps: seq<Step>, n: nat, a: Anomaly)
    requires n < |steps| && a.WriteSkew?
    ensures SomeSkews(initial, steps, n + 1, a) <==> SomeSkews(initial, steps, n, a) || SkewsAs(initial, steps, n, a)
  {
  }

  lemma {:induction false} SkewsUpTo(initial: seq<(string, int)>, steps: seq<Step>, n: nat, a: Anomaly)
    requires n <= |steps| && a.WriteSkew?
    ensures a in At(initial, steps, n).anomalies <==> SomeSkews(initial, steps, n, a)
  {
    if n > 0 {
      SkewsUpTo(initial, steps, n - 1, a);
      StepSkews(initial, steps, n - 1, a);
      OneMoreSkews(initial, steps, n - 1, a);
    }
  }

  /** Exactly which write skew a schedule records at the snapshot level: x commits after the other has, without having
      begun anew since, the two wrote different keys, and each had read a key that the other wrote. */
  lemma WriteSkewsExact(initial: seq<(string, int)>, steps: seq<Step>, a: Anomaly)
    requires a.WriteSkew?
    ensures a in Run(Init(SI, initial), steps).anomalies <==>
      exists c: nat :: c < |steps| && SkewsAs(initial, steps, c, a)
  {
    assert steps[..|steps|] == steps;
    SkewsUpTo(initial, steps, |steps|, a);
  }

  // ---------- the doctors on call ----------

  const ROTA: seq<(string, int)> := [("alice", 1), ("bob", 1)]

  /** Both check the rota, then both go off call. */
  function Doctors(): seq<Step> {
    [Step(T1, Begin), Step(T2, Begin), Step(T1, Ensure(["alice", "bob"], 2)), Step(T2, Ensure(["alice", "bob"], 2)),
     Step(T1, Write("alice", Set(0))), Step(T1, Commit), Step(T2, Write("bob", Set(0))), Step(T2, Commit)]
  }

  function OnCall(): Store {
    [Slot("alice", [Version(1, None, Some(0))]), Slot("bob", [Version(1, None, Some(0))])]
  }

  lemma SeedsSnoc(front: seq<(string, int)>, k: string, v: int)
    ensures Seeds(front + [(k, v)]) == PutChain(Seeds(front), k, [Version(v, None, Some(0))])
  {
    assert (front + [(k, v)])[..|front|] == front;
  }

  lemma PutSecond(j: string, c: seq<Version>, k: string, d: seq<Version>)
    requires j != k
    ensures PutChain([], j, c) == [Slot(j, c)] && PutChain([Slot(j, c)], k, d) == [Slot(j, c), Slot(k, d)]
  {
    assert [Slot(j, c)][1..] == [];
  }

  lemma RotaSeeds()
    ensures Seeds(ROTA) == OnCall()
  {
    var none: seq<(string, int)> := [];
    var c := [Version(1, None, Some(0))];
    assert "alice"[0] != "bob"[0];
    SeedsSnoc(none, "alice", 1);
    SeedsSnoc(none + [("alice", 1)], "bob", 1);
    PutSecond("alice", c, "bob", c);
    assert ROTA == none + [("alice", 1)] + [("bob", 1)];
  }

  lemma OnCallReads(s: Node, x: TxnId, key: string)
    requires s.level == SI && s.store == OnCall() && key in ["alice", "bob"]
    ensures Recorded(key, PickVersion(s, x, key)).value == 1
    ensures DoRead(s, x, key).store == OnCall() && DoRead(s, x, key).level == SI
  {
    var c := [Version(1, None, Some(0))];
    assert OnCall()[1..] == [Slot("bob", c)];
    assert Chain(OnCall(), key) == c;
    assert Pick(SI, Info(s, x).snapshotAt, x, c) == Some(c[0]);
  }

  /** With both on call the check passes, and changes nothing but the log of reads. */
  lemma ChecksRota(s: Node, x: TxnId)
    requires s.level == SI && s.store == OnCall()
    ensures DoEnsure(s, x, ["alice", "bob"], 2) == ReadAll(s, x, ["alice", "bob"]).0
    ensures ReadAll(s, x, ["alice", "bob"]).0.store == OnCall()
  {
    var none: seq<string> := [];
    assert ["alice", "bob"][..1] == ["alice"] && ["alice"][..0] == none;
    var a := ReadAll(s, x, ["alice"]);
    assert ReadAll(s, x, none) == (s, 0);
    OnCallReads(s, x, "alice");
    assert a == (DoRead(s, x, "alice"), 1);
    OnCallReads(a.0, x, "bob");
  }

  /** Both have begun and are live, at a clock. */
  ghost predicate BothLive(s: Node, clock: nat) {
    s.level == SI && !Done(s, T1) && !Done(s, T2) && s.clock == clock
  }

  lemma CheckStays(s: Node, x: TxnId, clock: nat)
    requires BothLive(s, clock) && s.store == OnCall()
    ensures var r := RunStep(s, Step(x, Ensure(["alice", "bob"], 2))); BothLive(r, clock) && r.store == OnCall()
  {
    ChecksRota(s, x);
    ReadAllFrame(s, x, ["alice", "bob"]);
    ReadAllStatus(s, x, ["alice", "bob"]);
  }

  lemma {:induction false} ReadAllStatus(s: Node, x: TxnId, keys: seq<string>)
    ensures var r := ReadAll(s, x, keys).0; Info(r, Other(x)) == Info(s, Other(x)) && r.level == s.level
  {
    if keys != [] { ReadAllStatus(s, x, keys[..|keys| - 1]); }
  }

  /** A schedule with the steps of the lesson, on a node with both on call. */
  ghost predicate Lesson(initial: seq<(string, int)>, d: seq<Step>) {
    && Seeds(initial) == OnCall() && |d| == 8
    && d[0] == Step(T1, Begin) && d[1] == Step(T2, Begin)
    && d[2] == Step(T1, Ensure(["alice", "bob"], 2)) && d[3] == Step(T2, Ensure(["alice", "bob"], 2))
    && d[4] == Step(T1, Write("alice", Set(0))) && d[5] == Step(T1, Commit)
    && d[6] == Step(T2, Write("bob", Set(0))) && d[7] == Step(T2, Commit)
  }

  lemma BothBegin(initial: seq<(string, int)>, d: seq<Step>)
    requires Lesson(initial, d)
    ensures BothLive(At(initial, d, 2), 2) && At(initial, d, 2).store == OnCall()
  {
    assert d[..0] == [];
    Next(initial, d, 0);
    Next(initial, d, 1);
  }

  lemma BothCheck(initial: seq<(string, int)>, d: seq<Step>)
    requires Lesson(initial, d)
    ensures BothLive(At(initial, d, 2), 2) && BothLive(At(initial, d, 3), 2) && BothLive(At(initial, d, 4), 2)
  {
    BothBegin(initial, d);
    Next(initial, d, 2);
    CheckStays(At(initial, d, 2), T1, 2);
    Next(initial, d, 3);
    CheckStays(At(initial, d, 3), T2, 2);
  }

  lemma FirstWrites(initial: seq<(string, int)>, d: seq<Step>)
    requires Lesson(initial, d) && BothLive(At(initial, d, 4), 2)
    ensures BothLive(At(initial, d, 5), 2)
  {
    Steps(initial, d, 4);
    LiveUnlessCommit(At(initial, d, 4), d[4]);
  }

  /** The first commits, and the second writes. */
  lemma FirstCommits(initial: seq<(string, int)>, d: seq<Step>)
    requires Lesson(initial, d) && BothLive(At(initial, d, 5), 2)
    ensures !Done(At(initial, d, 6), T2) && At(initial, d, 6).clock == 3
  {
    Steps(initial, d, 5);
    CommitsAlone(At(initial, d, 5), T1);
  }

  lemma WriteKeeps(s: Node, x: TxnId, key: string)
    requires s.level == SI && !Done(s, x)
    ensures var r := RunStep(s, Step(x, Write(key, Set(0)))); !Done(r, x) && r.clock == s.clock
  {
  }

  lemma SecondWrites(initial: seq<(string, int)>, d: seq<Step>)
    requires Lesson(initial, d) && !Done(At(initial, d, 6), T2) && At(initial, d, 6).clock == 3
    ensures !Done(At(initial, d, 7), T2) && At(initial, d, 7).clock == 3
  {
    Steps(initial, d, 6);
    WriteKeeps(At(initial, d, 6), T2, "bob");
  }

  lemma OnlyBob(initial: seq<(string, int)>, d: seq<Step>, k: string)
    requires Lesson(initial, d)
    ensures HasWritten(initial, d, 7, T2, k) ==> k == "bob"
    ensures HasWritten(initial, d, 5, T1, k) ==> k == "alice"
  {
    if HasWritten(initial, d, 7, T2, k) {
      var i :| 0 <= i < 7 && WritesAt(initial, d, i, T2, k);
      assert i == 6;
    }
    if HasWritten(initial, d, 5, T1, k) {
      var i :| 0 <= i < 5 && WritesAt(initial, d, i, T1, k);
      assert i == 4;
    }
  }

  lemma WrittenAt(initial: seq<(string, int)>, d: seq<Step>, i: nat, n: nat, x: TxnId, k: string)
    requires i < n <= |d|
    ensures WritesAt(initial, d, i, x, k) ==> HasWritten(initial, d, n, x, k)
    ensures ReadsAt(initial, d, i, x, k) ==> HasRead(initial, d, n, x, k)
  {
  }

  lemma LessonBegins(initial: seq<(string, int)>, d: seq<Step>)
    requires Lesson(initial, d)
    ensures Begins(d, T2, 0, 5) && Begins(d, T1, 0, 5) && !Begins(d, T2, 5, 7)
  {
    assert d[0] == Step(T1, Begin) && d[1] == Step(T2, Begin);
  }

  lemma LessonTouches(initial: seq<(string, int)>, d: seq<Step>)
    requires Lesson(initial, d) && BothLive(At(initial, d, 2), 2) && BothLive(At(initial, d, 3), 2)
    requires BothLive(At(initial, d, 4), 2) && !Done(At(initial, d, 6), T2)
    ensures HasWritten(initial, d, 5, T1, "alice") && HasWritten(initial, d, 7, T2, "bob")
    ensures HasRead(initial, d, 7, T2, "alice") && HasRead(initial, d, 5, T1, "bob")
  {
    WrittenAt(initial, d, 4, 5, T1, "alice");
    WrittenAt(initial, d, 6, 7, T2, "bob");
    WrittenAt(initial, d, 3, 7, T2, "alice");
    WrittenAt(initial, d, 2, 5, T1, "bob");
  }

  lemma LessonSkews(initial: seq<(string, int)>, d: seq<Step>)
    requires Lesson(initial, d)
    ensures SkewsWith(initial, d, 7, T2, 5) && At(initial, d, 7).clock == 3
  {
    BothCheck(initial, d);
    FirstWrites(initial, d);
    FirstCommits(initial, d);
    SecondWrites(initial, d);
    LessonTouches(initial, d);
    LessonBegins(initial, d);
    forall k | HasWritten(initial, d, 7, T2, k) ensures !HasWritten(initial, d, 5, T1, k) { OnlyBob(initial, d, k); }
  }

  /** The lesson's own schedule: at the snapshot level both doctors go off call, and the second commit is recorded as
      write skew. */
  lemma DoctorsSkew()
    ensures WriteSkew(T2, T1, 4) in Run(Init(SI, ROTA), Doctors()).anomalies
  {
    RotaSeeds();
    LessonsSkew(ROTA, Doctors());
  }

  lemma LessonsSkew(initial: seq<(string, int)>, d: seq<Step>)
    requires Lesson(initial, d)
    ensures WriteSkew(T2, T1, 4) in Run(Init(SI, initial), d).anomalies
  {
    var a := WriteSkew(T2, T1, 4);
    LessonSkews(initial, d);
    assert SkewsAs(initial, d, 7, a);
    WriteSkewsExact(initial, d, a);
  }
}
