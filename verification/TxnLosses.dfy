/** Which schedules lose an update at the snapshot level. The lab only sends its presets, in order, and those
    begin each transaction before its other steps (src/modules/txn-shared.ts:42-89): a schedule that loses an update
    can only be injected by a program that drives the simulation. */
module TxnLosses {
  import opened TxnEngine
  import opened TxnSnapshot

  /** The node after n steps. */
  function At(initial: seq<(string, int)>, steps: seq<Step>, n: nat): Node
    requires n <= |steps|
  {
    Run(Init(SI, initial), steps[..n])
  }

  // ---------- events of a schedule ----------

  /** Step i is one of x that logs a read of k, and what it finds is not a version of its own. */
  ghost predicate Reads(initial: seq<(string, int)>, steps: seq<Step>, i: nat, x: TxnId, k: string)
    requires i < |steps|
  {
    steps[i].txn == x &&
    LogsKey(Info(At(initial, steps, i), x).readLog, Info(At(initial, steps, i + 1), x).readLog, x, k)
  }

  /** A log grew by a record of k from elsewhere. */
  ghost predicate LogsKey(was: seq<ReadRecord>, log: seq<ReadRecord>, x: TxnId, k: string) {
    exists m :: |was| <= m < |log| && log[m].key == k && log[m].from != Some(x)
  }

  /** Step j is where y, still live and having written k, commits. */
  ghost predicate Commits(initial: seq<(string, int)>, steps: seq<Step>, j: nat, y: TxnId, k: string)
    requires j < |steps|
  {
    steps[j] == Step(y, Commit) && !Done(At(initial, steps, j), y) && k in Info(At(initial, steps, j), y).writes
  }

  /** x begins at one of the steps from a up to but not including b. */
  predicate Begins(steps: seq<Step>, x: TxnId, a: nat, b: nat)
    requires b <= |steps|
  {
    exists m :: a <= m < b && steps[m] == Step(x, Begin)
  }

  /** At step i, x can see what was committed at step j: it began in between, or has no snapshot. */
  predicate Sees(steps: seq<Step>, i: nat, j: nat, x: TxnId)
    requires i <= |steps|
  {
    j < i && (Begins(steps, x, j, i) || !Begins(steps, x, 0, i))
  }

  ghost predicate LastRead(initial: seq<(string, int)>, steps: seq<Step>, i: nat, c: nat, x: TxnId, k: string)
    requires c <= |steps|
  {
    i < c && Reads(initial, steps, i, x, k) && forall m :: i < m < c ==> !Reads(initial, steps, m, x, k)
  }

  /** At step c, x commits a write of k; the other transaction committed one at step j, after which x began; and
      the last read of k by x could not see it. */
  ghost predicate Loses(initial: seq<(string, int)>, steps: seq<Step>, c: nat, x: TxnId, k: string)
    requires c < |steps|
  {
    Commits(initial, steps, c, x, k) &&
    exists i: nat, j: nat :: i < c && j < c && LosesTo(initial, steps, c, x, k, i, j)
  }

  ghost predicate LosesTo(initial: seq<(string, int)>, steps: seq<Step>, c: nat, x: TxnId, k: string, i: nat, j: nat)
    requires i < c < |steps| && j < c
  {
    && Commits(initial, steps, j, Other(x), k) && Begins(steps, x, j, c)
    && LastRead(initial, steps, i, c, x, k) && !Sees(steps, i, j, x)
  }

  // ---------- the states along a schedule ----------

  lemma Next(initial: seq<(string, int)>, steps: seq<Step>, n: nat)
    requires n < |steps|
    ensures At(initial, steps, n + 1) == RunStep(At(initial, steps, n), steps[n])
  {
    assert steps[..n + 1][..n] == steps[..n];
  }

  lemma {:induction false} AllSnapped(initial: seq<(string, int)>, steps: seq<Step>, n: nat)
    requires n <= |steps|
    ensures Snapped(At(initial, steps, n))
  {
    if n == 0 {
      InitSnapped(initial);
    } else {
      AllSnapped(initial, steps, n - 1);
      Next(initial, steps, n - 1);
      StepGoes(At(initial, steps, n - 1), steps[n - 1]);
    }
  }

  /** One step of a schedule. */
  lemma Steps(initial: seq<(string, int)>, steps: seq<Step>, n: nat)
    requires n < |steps|
    ensures At(initial, steps, n + 1) == RunStep(At(initial, steps, n), steps[n])
    ensures Snapped(At(initial, steps, n)) && Goes(At(initial, steps, n), At(initial, steps, n + 1), steps[n].txn)
  {
    AllSnapped(initial, steps, n);
    Next(initial, steps, n);
    StepGoes(At(initial, steps, n), steps[n]);
  }

  lemma SkipKeeps(s: Node, step: Step)
    requires Done(s, step.txn)
    ensures RunStep(s, step) == s.(skippedOps := s.skippedOps + 1)
  {
  }

  lemma OverStays(initial: seq<(string, int)>, steps: seq<Step>, n: nat, x: TxnId)
    requires n < |steps| && Done(At(initial, steps, n), x)
    ensures Info(At(initial, steps, n + 1), x) == Info(At(initial, steps, n), x)
  {
    Steps(initial, steps, n);
    if steps[n].txn == x { SkipKeeps(At(initial, steps, n), steps[n]); }
  }

  /** A transaction that is over stays as it is. */
  lemma {:induction false} DoneStays(initial: seq<(string, int)>, steps: seq<Step>, i: nat, n: nat, x: TxnId)
    requires i <= n <= |steps| && Done(At(initial, steps, i), x)
    ensures Info(At(initial, steps, n), x) == Info(At(initial, steps, i), x)
  {
    if i < n {
      DoneStays(initial, steps, i, n - 1, x);
      OverStays(initial, steps, n - 1, x);
    }
  }

  lemma {:induction false} SeededStays(initial: seq<(string, int)>, steps: seq<Step>, i: nat, n: nat, k: string)
    requires i <= n <= |steps|
    ensures Seeded(At(initial, steps, n), k) <==> Seeded(At(initial, steps, i), k)
  {
    if i < n {
      SeededStays(initial, steps, i, n - 1, k);
      Steps(initial, steps, n - 1);
    }
  }

  // ---------- the last read ----------

  lemma {:induction false} LastForeignMore(was: seq<ReadRecord>, log: seq<ReadRecord>, x: TxnId, k: string)
    requires was <= log
    ensures !LogsKey(was, log, x, k) ==> LastForeign(log, x, k) == LastForeign(was, x, k)
    ensures LogsKey(was, log, x, k) ==>
      exists m :: |was| <= m < |log| && log[m].key == k && log[m].from != Some(x) && LastForeign(log, x, k) == Some(log[m])
  {
    if |log| == |was| {
      assert log == was;
    } else {
      var n := |log| - 1;
      LastForeignMore(was, log[..n], x, k);
      if log[n].key != k || log[n].from == Some(x) {
        assert LastForeign(log, x, k) == LastForeign(log[..n], x, k);
        if LogsKey(was, log[..n], x, k) {
          var m :| |was| <= m < n && log[..n][m].key == k && log[..n][m].from != Some(x) && LastForeign(log[..n], x, k) == Some(log[..n][m]);
          assert log[m] == log[..n][m];
        } else {
          forall m | |was| <= m < |log| ensures !(log[m].key == k && log[m].from != Some(x)) {
            if m < n { assert log[..n][m] == log[m]; }
          }
        }
      }
    }
  }

  /** The last record of k from elsewhere is that of the last such read, with the stamp found then. */
  lemma {:induction false} LastIs(initial: seq<(string, int)>, steps: seq<Step>, n: nat, x: TxnId, k: string)
    requires n <= |steps|
    ensures var r := LastForeign(Info(At(initial, steps, n), x).readLog, x, k);
      && (r.None? ==> forall i :: 0 <= i < n ==> !Reads(initial, steps, i, x, k))
      && (r.Some? ==> exists i: nat :: LastRead(initial, steps, i, n, x, k) && StampOf(r.value) == ReadStamp(At(initial, steps, i), x, k))
  {
    if n > 0 {
      LastIs(initial, steps, n - 1, x, k);
      Steps(initial, steps, n - 1);
      var s, q := At(initial, steps, n - 1), At(initial, steps, n);
      if steps[n - 1].txn == x {
        LastForeignMore(Info(s, x).readLog, Info(q, x).readLog, x, k);
      } else {
        assert Info(q, x) == Info(s, x);
      }
      LastStep(initial, steps, n, x, k, s, q);
    }
  }

  lemma LastStep(initial: seq<(string, int)>, steps: seq<Step>, n: nat, x: TxnId, k: string, s: Node, q: Node)
    requires 0 < n <= |steps| && s == At(initial, steps, n - 1) && q == At(initial, steps, n)
    requires var r := LastForeign(Info(s, x).readLog, x, k);
      && (r.None? ==> forall i :: 0 <= i < n - 1 ==> !Reads(initial, steps, i, x, k))
      && (r.Some? ==> exists i: nat :: LastRead(initial, steps, i, n - 1, x, k) && StampOf(r.value) == ReadStamp(At(initial, steps, i), x, k))
    requires Reads(initial, steps, n - 1, x, k) ==>
      exists m :: |Info(s, x).readLog| <= m < |Info(q, x).readLog| && Info(q, x).readLog[m].key == k
        && Info(q, x).readLog[m].from != Some(x) && LastForeign(Info(q, x).readLog, x, k) == Some(Info(q, x).readLog[m])
    requires !Reads(initial, steps, n - 1, x, k) ==> LastForeign(Info(q, x).readLog, x, k) == LastForeign(Info(s, x).readLog, x, k)
    requires steps[n - 1].txn == x ==> LogsFrom(s, x, |Info(s, x).readLog|, Info(q, x).readLog)
    ensures var r := LastForeign(Info(q, x).readLog, x, k);
      && (r.None? ==> forall i :: 0 <= i < n ==> !Reads(initial, steps, i, x, k))
      && (r.Some? ==> exists i: nat :: LastRead(initial, steps, i, n, x, k) && StampOf(r.value) == ReadStamp(At(initial, steps, i), x, k))
  {
    var r := LastForeign(Info(q, x).readLog, x, k);
    if Reads(initial, steps, n - 1, x, k) {
      assert LastRead(initial, steps, n - 1, n, x, k);
      assert StampOf(r.value) == ReadStamp(At(initial, steps, n - 1), x, k);
    } else if r.Some? {
      var i: nat :| LastRead(initial, steps, i, n - 1, x, k) && StampOf(r.value) == ReadStamp(At(initial, steps, i), x, k);
      assert LastRead(initial, steps, i, n, x, k);
    }
  }

  // ---------- what a snapshot shows ----------

  /** Where a transaction that has committed did so. */
  lemma {:induction false} FindCommit(initial: seq<(string, int)>, steps: seq<Step>, n: nat, y: TxnId, k: string) returns (j: nat)
    requires n <= |steps| && Info(At(initial, steps, n), y).status == Committed && k in Info(At(initial, steps, n), y).writes
    ensures j < n && Commits(initial, steps, j, y, k)
  {
    assert n > 0;
    Steps(initial, steps, n - 1);
    var s := At(initial, steps, n - 1);
    if Info(s, y).status == Committed {
      if steps[n - 1].txn == y { SkipKeeps(s, steps[n - 1]); }
      j := FindCommit(initial, steps, n - 1, y, k);
    } else {
      OnlyCommitCommits(s, steps[n - 1], y, k);
      j := n - 1;
    }
  }

  lemma OnlyCommitCommits(s: Node, step: Step, y: TxnId, k: string)
    requires Snapped(s) && Goes(s, RunStep(s, step), step.txn)
    requires Info(s, y).status != Committed && Info(RunStep(s, step), y).status == Committed
    requires k in Info(RunStep(s, step), y).writes
    ensures step == Step(y, Commit) && !Done(s, y) && k in Info(s, y).writes
  {
    if step.txn == y && !Done(s, y) {
      LiveUnlessCommit(s, step);
    }
  }

  lemma LiveUnlessCommit(s: Node, step: Step)
    requires s.level == SI && !Done(s, step.txn)
    ensures step.op != Commit ==> Info(RunStep(s, step), step.txn).status != Committed
    ensures Info(RunStep(s, step), step.txn).status == Committed ==> Info(RunStep(s, step), step.txn).writes == Info(s, step.txn).writes
    ensures step.op != Begin ==> Info(RunStep(s, step), step.txn).snapshotAt == Info(s, step.txn).snapshotAt
    ensures step.op == Begin ==> Info(RunStep(s, step), step.txn).snapshotAt == Some(s.clock + 1)
    ensures RunStep(s, step).clock >= s.clock
  {
    if step.op.Ensure? { ReadAllFrame(s, step.txn, step.op.keys); }
  }

  lemma {:induction false} ReadAllFrame(s: Node, x: TxnId, keys: seq<string>)
    ensures var r := ReadAll(s, x, keys).0;
      && Info(r, x) == Info(s, x).(readLog := Info(r, x).readLog) && r.clock == s.clock
  {
    if keys != [] { ReadAllFrame(s, x, keys[..|keys| - 1]); }
  }

  /** A commit while the other transaction is live finds no conflict, and is stamped with the next tick. */
  lemma CommitStamps(initial: seq<(string, int)>, steps: seq<Step>, j: nat, n: nat, y: TxnId, k: string)
    requires j < n <= |steps| && Commits(initial, steps, j, y, k) && !Done(At(initial, steps, n), Other(y))
    ensures Info(At(initial, steps, n), y) == Info(At(initial, steps, j + 1), y)
    ensures var i := Info(At(initial, steps, n), y);
      i.status == Committed && i.endedAt == Some(At(initial, steps, j).clock + 1) && k in i.writes
    ensures At(initial, steps, j + 1).clock == At(initial, steps, j).clock + 1
  {
    var s := At(initial, steps, j);
    if Done(s, Other(y)) { DoneStays(initial, steps, j, n, Other(y)); }
    Steps(initial, steps, j);
    CommitsAlone(s, y);
    DoneStays(initial, steps, j + 1, n, y);
  }

  lemma CommitsAlone(s: Node, y: TxnId)
    requires Snapped(s) && !Done(s, y) && !Done(s, Other(y))
    ensures var r := RunStep(s, Step(y, Commit));
      r.clock == s.clock + 1 && Info(r, y) == Info(s, y).(status := Committed, endedAt := Some(s.clock + 1))
  {
    var snap := SnapOf(Info(s, y));
    if Conflict(s, y, Info(s, y).writes, snap).Some? {
      SomeConflict(s, y, snap);
    }
  }

  lemma BeginsMore(steps: seq<Step>, x: TxnId, a: nat, b: nat)
    requires a <= b < |steps|
    ensures Begins(steps, x, a, b + 1) <==> Begins(steps, x, a, b) || steps[b] == Step(x, Begin)
  {
  }

  /** A live transaction has a snapshot if it has begun, not older than step j's tick if it began since. */
  lemma {:induction false} SnapshotIs(initial: seq<(string, int)>, steps: seq<Step>, n: nat, x: TxnId)
    requires n <= |steps| && !Done(At(initial, steps, n), x)
    ensures Info(At(initial, steps, n), x).snapshotAt.Some? <==> Begins(steps, x, 0, n)
  {
    if n > 0 {
      var s := At(initial, steps, n - 1);
      Steps(initial, steps, n - 1);
      if Done(s, x) { DoneStays(initial, steps, n - 1, n, x); }
      SnapshotIs(initial, steps, n - 1, x);
      BeginsMore(steps, x, 0, n - 1);
      if steps[n - 1].txn == x { LiveUnlessCommit(s, steps[n - 1]); }
    }
  }

  lemma ClockRises(s: Node, step: Step)
    requires s.level == SI
    ensures RunStep(s, step).clock >= s.clock
  {
    if !Done(s, step.txn) { LiveUnlessCommit(s, step); }
  }

  lemma SnapshotStep(s: Node, r: Node, step: Step, x: TxnId)
    requires s.level == SI && !Done(s, x) && r == RunStep(s, step)
    requires Info(r, Other(step.txn)) == Info(s, Other(step.txn))
    ensures r.clock >= s.clock
    ensures Info(r, x).snapshotAt == if step == Step(x, Begin) then Some(s.clock + 1) else Info(s, x).snapshotAt
  {
    ClockRises(s, step);
    if step.txn == x { LiveUnlessCommit(s, step); }
  }

  lemma SnapshotNext(initial: seq<(string, int)>, steps: seq<Step>, n: nat, x: TxnId)
    requires n < |steps| && !Done(At(initial, steps, n + 1), x)
    ensures var s, r := At(initial, steps, n), At(initial, steps, n + 1);
      && !Done(s, x) && r.clock >= s.clock
      && Info(r, x).snapshotAt == if steps[n] == Step(x, Begin) then Some(s.clock + 1) else Info(s, x).snapshotAt
  {
    Steps(initial, steps, n);
    if Done(At(initial, steps, n), x) { OverStays(initial, steps, n, x); }
    SnapshotStep(At(initial, steps, n), At(initial, steps, n + 1), steps[n], x);
  }

  lemma {:induction false} SnapshotSince(initial: seq<(string, int)>, steps: seq<Step>, j: nat, n: nat, x: TxnId)
    requires j < n <= |steps| && !Done(At(initial, steps, n), x) && steps[j].txn != x
    ensures At(initial, steps, n).clock >= At(initial, steps, j + 1).clock
    ensures var snap := Info(At(initial, steps, n), x).snapshotAt;
      && (Begins(steps, x, j, n) ==> snap.Some? && snap.value > At(initial, steps, j + 1).clock)
      && (!Begins(steps, x, j, n) ==> snap == Info(At(initial, steps, j), x).snapshotAt)
  {
    SnapshotNext(initial, steps, n - 1, x);
    if n - 1 == j {
      assert !Begins(steps, x, j, n);
    } else {
      SnapshotSince(initial, steps, j, n - 1, x);
      BeginsMore(steps, x, j, n - 1);
    }
  }

  /** A snapshot shows a commit exactly when the transaction sees it. */
  lemma ShowsIs(initial: seq<(string, int)>, steps: seq<Step>, i: nat, j: nat, x: TxnId, k: string)
    requires i <= |steps| && j < |steps| && !Done(At(initial, steps, i), x) && Commits(initial, steps, j, Other(x), k)
    ensures Shows(At(initial, steps, i), x, k) <==> Sees(steps, i, j, x)
  {
    if i <= j {
      if Done(At(initial, steps, i), Other(x)) { DoneStays(initial, steps, i, j, Other(x)); }
    } else {
      CommitStamps(initial, steps, j, i, Other(x), k);
      SnapshotSince(initial, steps, j, i, x);
      SnapshotIs(initial, steps, i, x);
      AllSnapped(initial, steps, j);
      assert Begins(steps, x, j, i) ==> Begins(steps, x, 0, i);
    }
  }

  // ---------- losses ----------

  /** A live transaction was overtaken exactly when the schedule says so. */
  lemma OvertakenLoses(initial: seq<(string, int)>, steps: seq<Step>, c: nat, x: TxnId, k: string)
    requires c < |steps| && steps[c] == Step(x, Commit) && !Done(At(initial, steps, c), x)
    requires Overtaken(At(initial, steps, c), x, k)
    ensures Loses(initial, steps, c, x, k)
  {
    var s, y := At(initial, steps, c), Other(x);
    var j := FindCommit(initial, steps, c, y, k);
    CommitStamps(initial, steps, j, c, y, k);
    ShowsIs(initial, steps, c, j, x, k);
    SnapshotIs(initial, steps, c, x);
    LastIs(initial, steps, c, x, k);
    var stamp := StampOf(LastForeign(Info(s, x).readLog, x, k).value);
    var i: nat :| LastRead(initial, steps, i, c, x, k) && stamp == ReadStamp(At(initial, steps, i), x, k);
    if Done(At(initial, steps, i), x) { DoneStays(initial, steps, i, c, x); }
    ShowsIs(initial, steps, i, j, x, k);
    if Sees(steps, i, j, x) { CommitStamps(initial, steps, j, i, y, k); }
    assert LosesTo(initial, steps, c, x, k, i, j);
  }

  lemma LosesOvertaken(initial: seq<(string, int)>, steps: seq<Step>, c: nat, x: TxnId, k: string)
    requires c < |steps| && Loses(initial, steps, c, x, k)
    ensures Overtaken(At(initial, steps, c), x, k)
  {
    var s, y := At(initial, steps, c), Other(x);
    var i: nat, j: nat :| i < c && j < c && LosesTo(initial, steps, c, x, k, i, j);
    CommitStamps(initial, steps, j, c, y, k);
    ShowsIs(initial, steps, c, j, x, k);
    SnapshotIs(initial, steps, c, x);
    assert Begins(steps, x, 0, c);
    LastIs(initial, steps, c, x, k);
    var r := LastForeign(Info(s, x).readLog, x, k);
    var m: nat :| LastRead(initial, steps, m, c, x, k) && StampOf(r.value) == ReadStamp(At(initial, steps, m), x, k);
    assert m == i;
    if Done(At(initial, steps, i), x) { DoneStays(initial, steps, i, c, x); }
    ShowsIs(initial, steps, i, j, x, k);
  }

  /** The commit at step c loses the update that the anomaly reports. */
  ghost predicate LosesAs(initial: seq<(string, int)>, steps: seq<Step>, c: nat, a: Anomaly)
    requires c < |steps| && a.LostUpdate?
  {
    Loses(initial, steps, c, a.who, a.key) && a.at == At(initial, steps, c).clock + 1
  }

  /** The anomalies of a step: a lost update of a key is recorded by the commit of its loser. */
  lemma StepLoses(initial: seq<(string, int)>, steps: seq<Step>, n: nat, a: Anomaly)
    requires n < |steps| && a.LostUpdate?
    ensures a in At(initial, steps, n + 1).anomalies <==>
      a in At(initial, steps, n).anomalies || LosesAs(initial, steps, n, a)
  {
    var s, x := At(initial, steps, n), steps[n].txn;
    Steps(initial, steps, n);
    if Done(s, x) || steps[n].op != Commit {
      QuietStep(s, steps[n], a);
    } else {
      CommitLoses(s, x, a);
      if a.who == x {
        if Overtaken(s, x, a.key) { OvertakenLoses(initial, steps, n, x, a.key); }
        if Loses(initial, steps, n, x, a.key) { LosesOvertaken(initial, steps, n, x, a.key); }
      }
    }
  }

  lemma {:induction false} ReadAllQuiet(s: Node, x: TxnId, keys: seq<string>, a: Anomaly)
    requires a.LostUpdate?
    ensures a in ReadAll(s, x, keys).0.anomalies <==> a in s.anomalies
  {
    if keys != [] { ReadAllQuiet(s, x, keys[..|keys| - 1], a); }
  }

  lemma QuietStep(s: Node, step: Step, a: Anomaly)
    requires s.level == SI && a.LostUpdate? && (Done(s, step.txn) || step.op != Commit)
    ensures a in RunStep(s, step).anomalies <==> a in s.anomalies
  {
    if step.op.Ensure? { ReadAllQuiet(s, step.txn, step.op.keys, a); }
  }

  ghost predicate SomeLoses(initial: seq<(string, int)>, steps: seq<Step>, n: nat, a: Anomaly)
    requires n <= |steps| && a.LostUpdate?
  {
    exists c: nat :: c < n && LosesAs(initial, steps, c, a)
  }

  lemma OneMoreLoses(initial: seq<(string, int)>, steps: seq<Step>, n: nat, a: Anomaly)
    requires n < |steps| && a.LostUpdate?
    ensures SomeLoses(initial, steps, n + 1, a) <==> SomeLoses(initial, steps, n, a) || LosesAs(initial, steps, n, a)
  {
  }

  lemma {:induction false} LossesUpTo(initial: seq<(string, int)>, steps: seq<Step>, n: nat, a: Anomaly)
    requires n <= |steps| && a.LostUpdate?
    ensures a in At(initial, steps, n).anomalies <==>
      SomeLoses(initial, steps, n, a)
  {
    if n > 0 {
      LossesUpTo(initial, steps, n - 1, a);
      StepLoses(initial, steps, n - 1, a);
      OneMoreLoses(initial, steps, n - 1, a);
    }
  }

  /** Exactly which lost updates a schedule records at the snapshot level: x commits a write of k after beginning
      anew since the other transaction committed k, while its last read of k could not yet see that commit. */
  lemma LostUpdatesExact(initial: seq<(string, int)>, steps: seq<Step>, a: Anomaly)
    requires a.LostUpdate?
    ensures a in Run(Init(SI, initial), steps).anomalies <==>
      exists c: nat :: c < |steps| && LosesAs(initial, steps, c, a)
  {
    assert steps[..|steps|] == steps;
    LossesUpTo(initial, steps, |steps|, a);
  }

  ghost predicate NoLoss(anomalies: seq<Anomaly>) {
    forall a :: a in anomalies ==> !a.LostUpdate?
  }

  /** A schedule records no lost update if and only if no commit of it loses one. */
  lemma NoLossIff(initial: seq<(string, int)>, steps: seq<Step>)
    ensures NoLoss(Run(Init(SI, initial), steps).anomalies) <==>
      forall c, x, k :: 0 <= c < |steps| ==> !Loses(initial, steps, c, x, k)
  {
    var anomalies := Run(Init(SI, initial), steps).anomalies;
    forall c, x, k | 0 <= c < |steps| && Loses(initial, steps, c, x, k) ensures !NoLoss(anomalies) {
      var a := LostUpdate(x, k, At(initial, steps, c).clock + 1);
      assert LosesAs(initial, steps, c, a);
      LostUpdatesExact(initial, steps, a);
    }
    forall a | a in anomalies && a.LostUpdate? ensures exists c, x, k :: 0 <= c < |steps| && Loses(initial, steps, c, x, k) {
      LostUpdatesExact(initial, steps, a);
      var c: nat :| c < |steps| && LosesAs(initial, steps, c, a);
      assert Loses(initial, steps, c, a.who, a.key);
    }
  }

  /** A transaction begins, if at all, before its other steps. */
  ghost predicate BeginsFirst(steps: seq<Step>) {
    forall i, j :: 0 <= i < j < |steps| && steps[i].txn == steps[j].txn ==> steps[j].op != Begin
  }

  lemma BegunFirst(initial: seq<(string, int)>, steps: seq<Step>, c: nat, x: TxnId, k: string)
    requires BeginsFirst(steps) && c < |steps|
    ensures !Loses(initial, steps, c, x, k)
  {
    if Loses(initial, steps, c, x, k) {
      var i: nat, j: nat :| i < c && j < c && LosesTo(initial, steps, c, x, k, i, j);
      var b: nat :| j <= b < c && steps[b] == Step(x, Begin);
      Steps(initial, steps, i);
      if b == i {
        BeginLogsNothing(At(initial, steps, i), x);
      } else if b < i {
        assert Begins(steps, x, j, i);
      }
    }
  }

  /** So snapshot isolation loses no update when transactions begin before they do anything else. */
  lemma NoLostUpdates(initial: seq<(string, int)>, steps: seq<Step>)
    requires BeginsFirst(steps)
    ensures NoLoss(Run(Init(SI, initial), steps).anomalies)
  {
    forall c, x, k | 0 <= c < |steps| ensures !Loses(initial, steps, c, x, k) {
      BegunFirst(initial, steps, c, x, k);
    }
    NoLossIff(initial, steps);
  }

  lemma BeginLogsNothing(s: Node, x: TxnId)
    requires s.level == SI
    ensures Info(RunStep(s, Step(x, Begin)), x).readLog == Info(s, x).readLog
  {
  }

  // ---------- a schedule that loses an update ----------

  lemma RunSnoc(s: Node, steps: seq<Step>, step: Step)
    ensures Run(s, steps + [step]) == RunStep(Run(s, steps), step)
  {
    assert (steps + [step])[..|steps|] == steps;
  }

  /** What such a schedule leaves of one key: a stale read, and a newer snapshot than the write it missed. */
  ghost predicate Stale(s: Node, k: string, u: int, v: int, w: int) {
    && s.level == SI && s.store == [Slot(k, [Version(u, None, Some(0)), Version(v, Some(T2), Some(1)), Version(w, Some(T1), None)])]
    && s.t1 == TxnInfo(Active, Some(2), None, Some(2), [ReadRecord(k, u, Some(0), None)], [k], None)
    && s.t2.status == Committed && s.anomalies == [] && s.clock == 2
  }

  lemma OneChain(k: string, c: seq<Version>, d: seq<Version>)
    ensures Chain([Slot(k, c)], k) == c && PutChain([Slot(k, c)], k, d) == [Slot(k, d)]
  {
  }

  /** A commit that finds no conflict on the one key that there is. */
  lemma OneKeyCommits(s: Node, x: TxnId, k: string, c: seq<Version>)
    requires s.level == SI && !Done(s, x) && s.store == [Slot(k, c)] && Info(s, x).writes == [k]
    requires !NewerThan(x, c, SnapOf(Info(s, x)))
    ensures RunStep(s, Step(x, Commit)) == Detect(Seal(s, x), x)
    ensures Seal(s, x).store == [Slot(k, Stamped(x, c, s.clock + 1))]
  {
    OneChain(k, c, c);
    assert Conflict(s, x, [k], SnapOf(Info(s, x))) == Conflict(s, x, [], SnapOf(Info(s, x)));
    assert AllStamped(x, s.store, s.clock + 1) == [Slot(k, Stamped(x, c, s.clock + 1))] + AllStamped(x, [], s.clock + 1);
  }

  lemma OneKeyLost(r: Node, x: TxnId, k: string)
    ensures LostUpdates(r, x, [k]) == if Clobbers(r, x, k) then [LostUpdate(x, k, r.clock)] else []
  {
    assert LostUpdates(r, x, [k]) == LostUpdates(r, x, []) + if Clobbers(r, x, k) then [LostUpdate(x, k, r.clock)] else [];
  }

  lemma StaleCommits(s: Node, k: string, u: int, v: int, w: int)
    requires Stale(s, k, u, v, w)
    ensures LostUpdate(T1, k, 3) in RunStep(s, Step(T1, Commit)).anomalies
  {
    var c := [Version(u, None, Some(0)), Version(v, Some(T2), Some(1)), Version(w, Some(T1), None)];
    var r := Seal(s, T1);
    OneKeyCommits(s, T1, k, c);
    OneChain(k, Stamped(T1, c, 3), []);
    StaleClobbers(r, k, u, Stamped(T1, c, 3));
    OneKeyLost(r, T1, k);
    assert LostUpdates(r, T1, [k])[0] == LostUpdate(T1, k, 3);
  }

  lemma StaleClobbers(r: Node, k: string, u: int, d: seq<Version>)
    requires Chain(r.store, k) == d && |d| == 3 && d[1].txn == Some(T2) && d[1].committedAt == Some(1)
    requires r.t1.readLog == [ReadRecord(k, u, Some(0), None)] && r.clock == 3
    ensures Clobbers(r, T1, k)
  {
    assert LastForeign(r.t1.readLog, T1, k) == Some(ReadRecord(k, u, Some(0), None));
    assert Newer(T1, d, 0, 3);
  }

  function Seed(u: int): Version { Version(u, None, Some(0)) }

  function AfterRead(k: string, u: int): Node {
    Init(SI, [(k, u)]).(t1 := FRESH.(readLog := [ReadRecord(k, u, Some(0), None)]))
  }

  function AfterForeign(k: string, u: int, v: int): Node {
    AfterRead(k, u).(store := [Slot(k, [Seed(u), Version(v, Some(T2), Some(1))])],
      t2 := FRESH.(status := Committed, endedAt := Some(1), writes := [k]), commits := 1, clock := 1)
  }

  lemma ReadsSeed(k: string, u: int)
    ensures Init(SI, [(k, u)]).store == [Slot(k, [Seed(u)])]
    ensures RunStep(Init(SI, [(k, u)]), Step(T1, Read(k))) == AfterRead(k, u)
  {
    var s0 := Init(SI, [(k, u)]);
    assert [(k, u)][..0] == [];
    assert Seeds([]) == [];
    assert Seeds([(k, u)]) == PutChain([], k, [Seed(u)]);
    OneChain(k, [Seed(u)], []);
    assert Pick(SI, None, T1, [Seed(u)]) == Some(Seed(u));
    assert PickVersion(s0, T1, k) == Some(Seed(u));
    assert Info(DoRead(s0, T1, k), T1).readLog == [ReadRecord(k, u, Some(0), None)];
  }

  lemma ForeignWrites(k: string, u: int, v: int, s: Node)
    requires s == AfterRead(k, u) && s.store == [Slot(k, [Seed(u)])]
    ensures RunStep(s, Step(T2, Write(k, Set(v)))) == s.(store := [Slot(k, [Seed(u), Version(v, Some(T2), None)])], t2 := FRESH.(writes := [k]))
  {
    OneChain(k, [Seed(u)], [Seed(u), Version(v, Some(T2), None)]);
    assert [Seed(u)] + [Version(v, Some(T2), None)] == [Seed(u), Version(v, Some(T2), None)];
  }

  lemma ForeignCommits(k: string, u: int, v: int, s: Node)
    requires s == AfterRead(k, u).(store := [Slot(k, [Seed(u), Version(v, Some(T2), None)])], t2 := FRESH.(writes := [k]))
    ensures RunStep(s, Step(T2, Commit)) == AfterForeign(k, u, v)
  {
    var c := [Seed(u), Version(v, Some(T2), None)];
    OneKeyCommits(s, T2, k, c);
    assert Stamped(T2, c, 1) == [Seed(u), Version(v, Some(T2), Some(1))];
    var r := Seal(s, T2);
    assert r == AfterForeign(k, u, v);
    OneKeyLost(r, T2, k);
    assert Detect(r, T2).anomalies == r.anomalies;
  }

  lemma LateBegins(k: string, u: int, v: int, w: int, s: Node)
    requires s == AfterForeign(k, u, v)
    ensures Stale(RunStep(RunStep(s, Step(T1, Begin)), Step(T1, Write(k, Set(w)))), k, u, v, w)
  {
    var c := [Seed(u), Version(v, Some(T2), Some(1))];
    var d := [Seed(u), Version(v, Some(T2), Some(1)), Version(w, Some(T1), None)];
    OneChain(k, c, d);
    assert c + [Version(w, Some(T1), None)] == d;
  }

  lemma LateBegin(k: string, u: int, v: int, w: int, s0: Node, steps: seq<Step>)
    requires s0 == Init(SI, [(k, u)])
    requires steps == [Step(T1, Read(k)), Step(T2, Write(k, Set(v))), Step(T2, Commit), Step(T1, Begin), Step(T1, Write(k, Set(w)))]
    ensures Stale(Run(s0, steps), k, u, v, w)
  {
    ReadsSeed(k, u);
    ForeignWrites(k, u, v, AfterRead(k, u));
    var s2 := RunStep(AfterRead(k, u), Step(T2, Write(k, Set(v))));
    ForeignCommits(k, u, v, s2);
    LateBegins(k, u, v, w, AfterForeign(k, u, v));
    FiveSteps(s0, steps);
  }

  lemma FiveSteps(s0: Node, steps: seq<Step>)
    requires |steps| == 5
    ensures Run(s0, steps) == RunStep(RunStep(RunStep(RunStep(RunStep(s0, steps[0]), steps[1]), steps[2]), steps[3]), steps[4])
  {
    var none: seq<Step> := [];
    RunSnoc(s0, none, steps[0]);
    assert none + [steps[0]] == steps[..1];
    RunSnoc(s0, steps[..1], steps[1]);
    assert steps[..1] + [steps[1]] == steps[..2];
    RunSnoc(s0, steps[..2], steps[2]);
    assert steps[..2] + [steps[2]] == steps[..3];
    RunSnoc(s0, steps[..3], steps[3]);
    assert steps[..3] + [steps[3]] == steps[..4];
    RunSnoc(s0, steps[..4], steps[4]);
    assert steps[..4] + [steps[4]] == steps;
  }

  /** A schedule that loses an update: it reads first and begins later, so that its snapshot is newer than the
      commit its read missed. */
  lemma LateBeginLoses(k: string, u: int, v: int, w: int)
    ensures LostUpdate(T1, k, 3) in Run(Init(SI, [(k, u)]),
      [Step(T1, Read(k)), Step(T2, Write(k, Set(v))), Step(T2, Commit), Step(T1, Begin), Step(T1, Write(k, Set(w)))]
      + [Step(T1, Commit)]).anomalies
  {
    var s0 := Init(SI, [(k, u)]);
    var steps := [Step(T1, Read(k)), Step(T2, Write(k, Set(v))), Step(T2, Commit), Step(T1, Begin), Step(T1, Write(k, Set(w)))];
    LateBegin(k, u, v, w, s0, steps);
    StaleCommits(Run(s0, steps), k, u, v, w);
    RunSnoc(s0, steps, Step(T1, Commit));
  }
}
