/** What the death of a worker undoes, exactly: which tasks run again, which disks are forgotten, what is charged. */
module BatchDeaths {
  import opened BatchShared
  import opened BatchWorker
  import opened BatchSched
  import opened BatchRuns

  // ---------- what a death costs, told before it ----------

  /** The map is done and its output is on the worker's disk. */
  predicate LiesOn(s: Sched, w: Worker, m: MapTask) {
    RowOf(s, Map(m)).status == Done && m in s.diskAt && s.diskAt[m] == w
  }

  /** An unfinished reduce that still needs the map's output: it has not fetched it, or dies with the worker. */
  predicate Wants(s: Sched, w: Worker, r: ReduceTask, m: MapTask) {
    RowOf(s, Red(r)).status != Done && (m !in FetchedBy(s, r) || RunsOn(s, Red(r), w))
  }

  predicate Falls(s: Sched, w: Worker, m: MapTask) {
    LiesOn(s, w, m) && (Wants(s, w, R0, m) || Wants(s, w, R1, m))
  }

  /** It has to run again: it was running on the worker, or is a map whose needed output goes with it. */
  predicate RunsAgain(s: Sched, w: Worker, t: TaskId) {
    RunsOn(s, t, w) || (t.Map? && Falls(s, w, t.m))
  }

  /** How many of the first n map tasks fall. */
  function Fallen(s: Sched, w: Worker, n: nat): nat
    requires n <= 3
  {
    if n == 0 then 0 else Fallen(s, w, n - 1) + if Falls(s, w, MAP_TASKS[n - 1]) then 1 else 0
  }

  /** How many of the first n tasks run on the worker, and the ticks they have spent. */
  function Interrupts(s: Sched, w: Worker, n: nat): nat
    requires n <= 5
  {
    if n == 0 then 0 else Interrupts(s, w, n - 1) + if RunsOn(s, TASK_ORDER[n - 1], w) then 1 else 0
  }

  function Spent(s: Sched, w: Worker, n: nat): nat
    requires n <= 5
  {
    if n == 0 then 0
    else Spent(s, w, n - 1) + if RunsOn(s, TASK_ORDER[n - 1], w) then RowOf(s, TASK_ORDER[n - 1]).execTicks else 0
  }

  // ---------- the interrupted task ----------

  lemma {:induction false} NoInterrupts(s: Sched, w: Worker, n: nat)
    requires n <= 5 && forall t :: !RunsOn(s, t, w)
    ensures Interrupts(s, w, n) == 0 && Spent(s, w, n) == 0
  {
    if n > 0 { NoInterrupts(s, w, n - 1); }
  }

  predicate Precedes(t: TaskId, n: nat)
    requires n <= 5
  {
    exists j :: 0 <= j < n && TASK_ORDER[j] == t
  }

  lemma OrderDistinct(i: nat, j: nat)
    requires i < j < 5
    ensures TASK_ORDER[i] != TASK_ORDER[j]
  {
  }

  lemma {:induction false} OneInterrupt(s: Sched, w: Worker, t: TaskId, n: nat)
    requires n <= 5 && RunsOn(s, t, w) && forall u :: u != t ==> !RunsOn(s, u, w)
    ensures Interrupts(s, w, n) == if Precedes(t, n) then 1 else 0
    ensures Spent(s, w, n) == if Precedes(t, n) then RowOf(s, t).execTicks else 0
  {
    if n > 0 {
      OneInterrupt(s, w, t, n - 1);
      if TASK_ORDER[n - 1] == t && Precedes(t, n - 1) {
        var j :| 0 <= j < n - 1 && TASK_ORDER[j] == t;
        OrderDistinct(j, n - 1);
      }
    }
  }

  lemma OnlyOne(s: Sched, w: Worker, t: TaskId)
    requires Placed(s) && RunsOn(s, t, w)
    ensures forall u :: u != t ==> !RunsOn(s, u, w)
  {
    forall u | u != t ensures !RunsOn(s, u, w) { assert Apart(s, t, u); }
  }

  /** The state once the running task of the worker is lost. */
  ghost predicate Interrupted1(s: Sched, w: Worker, a: Sched) {
    && (forall t :: RowOf(a, t) == if RunsOn(s, t, w) then Requeued(RowOf(s, t)) else RowOf(s, t))
    && (forall r :: FetchedBy(a, r) == if RunsOn(s, Red(r), w) then [] else FetchedBy(s, r))
    && a.diskAt == s.diskAt && a.live == s.live - {w} && a.lostAfterDone == s.lostAfterDone
    && a.reexecuted == s.reexecuted + Interrupts(s, w, 5) && a.wasted == s.wasted + Spent(s, w, 5)
  }

  lemma LoseRunningIs(s: Sched, w: Worker)
    requires Placed(s)
    ensures Interrupted1(s, w, LoseRunning(MarkDead(s, w), w))
  {
    var d := MarkDead(s, w);
    assert forall t :: RowOf(d, t) == RowOf(s, t);
    NoneRunning(d, w, 0);
    var t := FirstRunning(d, w, 0);
    if t.Some? {
      OnlyOne(s, w, t.value);
      OneInterrupt(s, w, t.value, 5);
      var j := InOrder(t.value);
      InterruptIs(s, d, w, t.value);
    } else {
      forall u ensures !RunsOn(s, u, w) { NotBusy(d, w, u); }
      NoInterrupts(s, w, 5);
    }
  }

  lemma InterruptIs(s: Sched, d: Sched, w: Worker, t: TaskId)
    requires d == MarkDead(s, w) && RunsOn(s, t, w) && forall u :: u != t ==> !RunsOn(s, u, w)
    ensures var a := Interrupted(d, t);
      && (forall u :: RowOf(a, u) == if RunsOn(s, u, w) then Requeued(RowOf(s, u)) else RowOf(s, u))
      && (forall r :: FetchedBy(a, r) == if RunsOn(s, Red(r), w) then [] else FetchedBy(s, r))
      && a.diskAt == s.diskAt && a.live == s.live - {w} && a.lostAfterDone == s.lostAfterDone
      && a.reexecuted == s.reexecuted + 1 && a.wasted == s.wasted + RowOf(s, t).execTicks
  {
    var a := Interrupted(d, t);
    forall r ensures FetchedBy(a, r) == if RunsOn(s, Red(r), w) then [] else FetchedBy(s, r) {
      assert t == Red(r) <==> RunsOn(s, Red(r), w);
    }
  }

  // ---------- the lost disks ----------

  function Rank(m: MapTask): nat { match m case M0 => 0 case M1 => 1 case M2 => 2 }

  lemma RankIs(m: MapTask, i: nat)
    requires i < 3
    ensures MAP_TASKS[i] == m <==> Rank(m) == i
  {
  }

  /** How many of the first n map tasks are done on the worker's disk and still needed. */
  function Gone(a: Sched, w: Worker, n: nat): nat
    requires n <= 3
  {
    if n == 0 then 0 else Gone(a, w, n - 1) + if LiesOn(a, w, MAP_TASKS[n - 1]) && StillNeeded(a, MAP_TASKS[n - 1]) then 1 else 0
  }

  /** The state once the disks of the first n map tasks are seen to. */
  ghost predicate Forgot(a: Sched, w: Worker, n: nat, b: Sched)
    requires n <= 3
  {
    && (forall r :: RowOf(b, Red(r)) == RowOf(a, Red(r)) && FetchedBy(b, r) == FetchedBy(a, r))
    && (forall m {:trigger MapForgot(a, w, n, b, m)} :: MapForgot(a, w, n, b, m))
    && b.live == a.live && b.lostAfterDone == a.lostAfterDone + Gone(a, w, n)
    && b.reexecuted == a.reexecuted + Gone(a, w, n) && b.wasted == a.wasted + MAP_EXEC_TICKS * Gone(a, w, n)
  }

  ghost predicate MapForgot(a: Sched, w: Worker, n: nat, b: Sched, m: MapTask) {
    var hit := Rank(m) < n && LiesOn(a, w, m);
    && (m in b.diskAt <==> m in a.diskAt && !hit) && (m in b.diskAt ==> b.diskAt[m] == a.diskAt[m])
    && RowOf(b, Map(m)) == if hit && StillNeeded(a, m) then Requeued(RowOf(a, Map(m))) else RowOf(a, Map(m))
  }

  /** What losing the disk of one map makes of it, and of any other. */
  lemma LoseDiskAt(b: Sched, w: Worker, m: MapTask, x: MapTask)
    ensures var c, hit := LoseDisk(b, w, m), x == m && LiesOn(b, w, m);
      && (x in c.diskAt <==> x in b.diskAt && !hit) && (x in c.diskAt ==> c.diskAt[x] == b.diskAt[x])
      && RowOf(c, Map(x)) == if hit && StillNeeded(b, m) then Requeued(RowOf(b, Map(m))) else RowOf(b, Map(x))
  {
  }

  lemma ForgetMap(a: Sched, w: Worker, n: nat, k: nat, b: Sched, m: MapTask, c: Sched, x: MapTask)
    requires n < 3 && k == n + 1 && MapForgot(a, w, n, b, x) && Rank(m) == n && (x == m <==> Rank(x) == n)
    requires c == LoseDisk(b, w, m) && (StillNeeded(b, m) <==> StillNeeded(a, m))
    ensures MapForgot(a, w, k, c, x)
  {
    LoseDiskAt(b, w, m, x);
  }

  lemma SameNeeds(a: Sched, b: Sched, m: MapTask)
    requires forall r :: RowOf(b, Red(r)) == RowOf(a, Red(r)) && FetchedBy(b, r) == FetchedBy(a, r)
    ensures StillNeeded(b, m) <==> StillNeeded(a, m)
  {
    assert FetchedBy(b, R0) == FetchedBy(a, R0) && FetchedBy(b, R1) == FetchedBy(a, R1);
    assert RowOf(b, Red(R0)) == RowOf(a, Red(R0)) && RowOf(b, Red(R1)) == RowOf(a, Red(R1));
  }

  lemma ForgetOne(a: Sched, w: Worker, n: nat, b: Sched)
    requires n < 3 && Forgot(a, w, n, b)
    ensures Forgot(a, w, n + 1, LoseDisk(b, w, MAP_TASKS[n]))
  {
    var m, k := MAP_TASKS[n], n + 1;
    var c := LoseDisk(b, w, m);
    RankIs(m, n);
    assert MapForgot(a, w, n, b, m);
    SameNeeds(a, b, m);
    forall x ensures MapForgot(a, w, k, c, x) {
      assert MapForgot(a, w, n, b, x);
      RankIs(x, n);
      ForgetMap(a, w, n, k, b, m, c, x);
    }
    forall r ensures RowOf(c, Red(r)) == RowOf(a, Red(r)) && FetchedBy(c, r) == FetchedBy(a, r) {
      assert RowOf(b, Red(r)) == RowOf(a, Red(r)) && FetchedBy(b, r) == FetchedBy(a, r);
    }
  }

  lemma {:induction false} LoseDisksIs(a: Sched, w: Worker, n: nat)
    requires n <= 3
    ensures Forgot(a, w, n, LoseDisks(a, w, n))
  {
    if n > 0 {
      LoseDisksIs(a, w, n - 1);
      ForgetOne(a, w, n - 1, LoseDisks(a, w, n - 1));
    } else {
      forall m ensures MapForgot(a, w, 0, a, m) {}
    }
  }

  // ---------- scheduling ----------

  /** A row that scheduling leaves: the same, or a runnable task newly placed on a live worker. */
  predicate Started(row: TaskRow, row': TaskRow, live: set<Worker>) {
    || row' == row
    || (row.status == Runnable && row'.status == Running && row'.attempt == row.attempt && row'.worker.Some? && row'.worker.value in live)
  }

  ghost predicate OnlyStarts(s: Sched, s': Sched) {
    s' == s.(tasks := s'.tasks) && forall t :: Started(RowOf(s, t), RowOf(s', t), s.live)
  }

  lemma PlaceStarts(s: Sched, t: TaskId, w: Worker)
    requires IsRunnable(s, t) && w in s.live
    ensures OnlyStarts(s, Place(s, t, w))
  {
  }

  lemma StartsThen(a: Sched, b: Sched, c: Sched)
    requires OnlyStarts(a, b) && OnlyStarts(b, c)
    ensures OnlyStarts(a, c)
  {
    forall t ensures Started(RowOf(a, t), RowOf(c, t), a.live) {
      assert Started(RowOf(a, t), RowOf(b, t), a.live) && Started(RowOf(b, t), RowOf(c, t), b.live);
    }
  }

  lemma {:induction false} ScheduleStarts(s: Sched)
    ensures OnlyStarts(s, ScheduleMr(s).0)
    decreases Runnables(s, 0)
  {
    var t := FirstRunnable(s, 0);
    if t.Some? && FirstIdle(s, 0).Some? {
      var w := FirstIdle(s, 0).value;
      FirstRunnableIs(s, 0);
      IdleIs(s, 0);
      PlaceFewer(s, t.value, w);
      PlaceStarts(s, t.value, w);
      ScheduleStarts(Place(s, t.value, w));
      StartsThen(s, Place(s, t.value, w), ScheduleMr(Place(s, t.value, w)).0);
    }
  }

  // ---------- the death ----------

  /** What the disks see is what was there before the death. */
  lemma NeededIs(s: Sched, w: Worker, a: Sched, m: MapTask)
    requires Interrupted1(s, w, a)
    ensures LiesOn(a, w, m) <==> LiesOn(s, w, m)
    ensures LiesOn(s, w, m) ==> (StillNeeded(a, m) <==> Falls(s, w, m))
    ensures LiesOn(s, w, m) ==> !RunsOn(s, Map(m), w)
  {
    assert RowOf(a, Map(m)) == if RunsOn(s, Map(m), w) then Requeued(RowOf(s, Map(m))) else RowOf(s, Map(m));
    assert RowOf(a, Red(R0)) == if RunsOn(s, Red(R0), w) then Requeued(RowOf(s, Red(R0))) else RowOf(s, Red(R0));
    assert RowOf(a, Red(R1)) == if RunsOn(s, Red(R1), w) then Requeued(RowOf(s, Red(R1))) else RowOf(s, Red(R1));
    assert FetchedBy(a, R0) == if RunsOn(s, Red(R0), w) then [] else FetchedBy(s, R0);
    assert FetchedBy(a, R1) == if RunsOn(s, Red(R1), w) then [] else FetchedBy(s, R1);
  }

  lemma {:induction false} GoneIs(s: Sched, w: Worker, a: Sched, n: nat)
    requires Interrupted1(s, w, a) && n <= 3
    ensures Gone(a, w, n) == Fallen(s, w, n)
  {
    if n > 0 {
      GoneIs(s, w, a, n - 1);
      NeededIs(s, w, a, MAP_TASKS[n - 1]);
    }
  }

  /** The state before the freed tasks are placed again. */
  ghost predicate Undone(s: Sched, w: Worker, b: Sched) {
    && (forall t {:trigger RowOf(b, t)} :: RowOf(b, t) == if RunsAgain(s, w, t) then Requeued(RowOf(s, t)) else RowOf(s, t))
    && (forall r :: FetchedBy(b, r) == if RunsOn(s, Red(r), w) then [] else FetchedBy(s, r))
    && (forall m :: m in b.diskAt <==> m in s.diskAt && !LiesOn(s, w, m))
    && (forall m :: m in b.diskAt ==> b.diskAt[m] == s.diskAt[m])
    && b.live == s.live - {w} && b.lostAfterDone == s.lostAfterDone + Fallen(s, w, 3)
    && b.reexecuted == s.reexecuted + Interrupts(s, w, 5) + Fallen(s, w, 3)
    && b.wasted == s.wasted + Spent(s, w, 5) + MAP_EXEC_TICKS * Fallen(s, w, 3)
  }

  lemma UndoneBy(s: Sched, w: Worker, a: Sched, b: Sched)
    requires Interrupted1(s, w, a) && Forgot(a, w, 3, b)
    ensures Undone(s, w, b)
  {
    GoneIs(s, w, a, 3);
    forall t ensures RowOf(b, t) == if RunsAgain(s, w, t) then Requeued(RowOf(s, t)) else RowOf(s, t) {
      assert RowOf(a, t) == if RunsOn(s, t, w) then Requeued(RowOf(s, t)) else RowOf(s, t);
      if t.Map? {
        NeededIs(s, w, a, t.m);
        assert MapForgot(a, w, 3, b, t.m);
      } else {
        assert RowOf(b, Red(t.r)) == RowOf(a, Red(t.r));
      }
    }
    forall m ensures (m in b.diskAt <==> m in s.diskAt && !LiesOn(s, w, m)) && (m in b.diskAt ==> b.diskAt[m] == s.diskAt[m]) {
      NeededIs(s, w, a, m);
      assert MapForgot(a, w, 3, b, m);
    }
    forall r ensures FetchedBy(b, r) == if RunsOn(s, Red(r), w) then [] else FetchedBy(s, r) {
      assert FetchedBy(b, r) == FetchedBy(a, r);
    }
  }

  lemma DeathIs(s: Sched, w: Worker) returns (b: Sched)
    requires Placed(s)
    ensures Undone(s, w, b) && OnlyStarts(b, DeclareDead(s, w).0)
  {
    var a := LoseRunning(MarkDead(s, w), w);
    b := LoseDisks(a, w, 3);
    LoseRunningIs(s, w);
    LoseDisksIs(a, w, 3);
    UndoneBy(s, w, a, b);
    ScheduleStarts(b);
  }

  /** Exactly the tasks that ran on the dead worker, and the finished maps whose output died on its disk while some
      unfinished reduce still needed it, run again at the next attempt: runnable, or already placed on a live worker.
      Every other task keeps its row, unless it was runnable and is now placed. */
  lemma DeathRequeues(s: Sched, w: Worker, t: TaskId)
    requires Placed(s)
    ensures var row, row', live := RowOf(s, t), RowOf(DeclareDead(s, w).0, t), s.live - {w};
      if RunsAgain(s, w, t)
      then row'.attempt == row.attempt + 1
           && (row'.status == Runnable || (row'.status == Running && row'.worker.Some? && row'.worker.value in live))
      else Started(row, row', live)
  {
    var b := DeathIs(s, w);
    assert Started(RowOf(b, t), RowOf(DeclareDead(s, w).0, t), b.live);
  }

  /** Exactly the finished maps on the dead worker's disk lose their place; so none that is done has it there. */
  lemma DeathForgets(s: Sched, w: Worker, m: MapTask)
    requires Placed(s)
    ensures var s' := DeclareDead(s, w).0;
      && (m in s'.diskAt <==> m in s.diskAt && !LiesOn(s, w, m)) && (m in s'.diskAt ==> s'.diskAt[m] == s.diskAt[m])
      && !LiesOn(s', w, m)
  {
    var b := DeathIs(s, w);
    assert Started(RowOf(b, Map(m)), RowOf(DeclareDead(s, w).0, Map(m)), b.live);
    assert RowOf(b, Map(m)) == if RunsAgain(s, w, Map(m)) then Requeued(RowOf(s, Map(m))) else RowOf(s, Map(m));
  }

  /** An interrupted reduce starts over; other reduces keep what they fetched. */
  lemma DeathFetched(s: Sched, w: Worker, r: ReduceTask)
    requires Placed(s)
    ensures FetchedBy(DeclareDead(s, w).0, r) == if RunsOn(s, Red(r), w) then [] else FetchedBy(s, r)
    ensures DeclareDead(s, w).0.live == s.live - {w}
  {
    var b := DeathIs(s, w);
  }

  /** The counters rise by exactly what was lost: the interrupted task with the ticks it had spent, and a whole
      execution for each finished map that has to run again. */
  lemma DeathCharges(s: Sched, w: Worker)
    requires Placed(s)
    ensures var s' := DeclareDead(s, w).0;
      && s'.lostAfterDone == s.lostAfterDone + Fallen(s, w, 3)
      && s'.reexecuted == s.reexecuted + Interrupts(s, w, 5) + Fallen(s, w, 3)
      && s'.wasted == s.wasted + Spent(s, w, 5) + MAP_EXEC_TICKS * Fallen(s, w, 3)
  {
    var b := DeathIs(s, w);
  }

  // ---------- who is declared dead ----------

  predicate Silent(s: Sched, w: Worker, now: nat) { now > Of(s.lastPong, w) + DEAD_AFTER }

  lemma DeadLive(s: Sched, w: Worker)
    requires Placed(s)
    ensures DeclareDead(s, w).0.live == s.live - {w} && DeclareDead(s, w).0.lastPong == s.lastPong
  {
    DeathFetched(s, w, R0);
    DisksPong(LoseRunning(MarkDead(s, w), w), w, 3);
    ScheduleStarts(LoseDisks(LoseRunning(MarkDead(s, w), w), w, 3));
  }

  lemma {:induction false} DisksPong(a: Sched, w: Worker, n: nat)
    requires n <= 3
    ensures LoseDisks(a, w, n).lastPong == a.lastPong
  {
    if n > 0 { DisksPong(a, w, n - 1); }
  }

  /** A ping round declares dead exactly the live workers that have been silent for too long. */
  lemma {:induction false} PingsBury(s: Sched, now: nat, n: nat, w: Worker)
    requires Placed(s) && n <= 3
    ensures var r := PingWorkers(s, now, n).0;
      && r.lastPong == s.lastPong
      && (w in r.live <==> w in s.live && !(Silent(s, w, now) && w in WORKERS[..n]))
  {
    if n > 0 {
      PingsBury(s, now, n - 1, w);
      PingsBury(s, now, n - 1, WORKERS[n - 1]);
      PingsOk(s, now, n - 1);
      var a := PingWorkers(s, now, n - 1).0;
      DeadLive(a, WORKERS[n - 1]);
      assert WORKERS[..n] == WORKERS[..n - 1] + [WORKERS[n - 1]];
    }
  }
}
