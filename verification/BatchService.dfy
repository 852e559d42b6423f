/** Over whole runs, who may report a map, where finished maps lie, and that every ping round leaves the running
    reduces something to fetch. */
module BatchService {
  import opened BatchShared
  import opened BatchWorker
  import opened BatchSched
  import opened BatchRuns
  import opened BatchDeaths

  // ---------- where finished maps lie ----------

  /** The worker was given that attempt of the map, and no other worker was: if it is the present one, the map runs
      there or is done. */
  predicate Owned(s: Sched, w: Worker, m: MapTask, attempt: nat) {
    var row := RowOf(s, Map(m));
    || attempt < row.attempt
    || (attempt == row.attempt && (row.status == Done || (row.status == Running && row.worker == Some(w))))
  }

  /** The output of every finished map that the scheduler still lists is on a live worker. */
  ghost predicate DisksLive(s: Sched) {
    forall m :: m in s.diskAt && RowOf(s, Map(m)).status == Done ==> s.diskAt[m] in s.live
  }

  /** No reduce waits for a worker while one idles. */
  ghost predicate ReducesServed(s: Sched) {
    FirstIdle(s, 0).None? || (!IsRunnable(s, Red(R0)) && !IsRunnable(s, Red(R1)))
  }

  /** Before the job starts nothing was given out. */
  ghost predicate Untouched(s: Sched) {
    !s.started ==> forall t :: RowOf(s, t).status == Waiting && RowOf(s, t).attempt == 0
  }

  lemma StartedBy(s: Sched, t: TaskId)
    requires Untouched(s) && RowOf(s, t).status != Waiting
    ensures s.started
  {
  }

  ghost predicate Served(s: Sched) {
    Placed(s) && DisksLive(s) && ReducesServed(s) && Untouched(s)
  }

  /** How a row may go on: to a later attempt, or within one from runnable to running to done, on one worker. */
  predicate GoesOn(row: TaskRow, row': TaskRow) {
    || row'.attempt > row.attempt
    || (row'.attempt == row.attempt
        && (row.status == Done ==> row'.status == Done)
        && (row.status == Running ==> row'.status == Done || (row'.status == Running && row'.worker == row.worker)))
  }

  ghost predicate MapsGoOn(s: Sched, s': Sched) {
    forall m {:trigger RowOf(s', Map(m))} :: GoesOn(RowOf(s, Map(m)), RowOf(s', Map(m)))
  }

  lemma OwnedStays(s: Sched, s': Sched, w: Worker, m: MapTask, attempt: nat)
    requires Owned(s, w, m, attempt) && MapsGoOn(s, s')
    ensures Owned(s', w, m, attempt)
  {
    assert GoesOn(RowOf(s, Map(m)), RowOf(s', Map(m)));
  }

  lemma GoesOnThen(a: Sched, b: Sched, c: Sched)
    requires MapsGoOn(a, b) && MapsGoOn(b, c)
    ensures MapsGoOn(a, c)
  {
    forall m ensures GoesOn(RowOf(a, Map(m)), RowOf(c, Map(m))) {
      assert GoesOn(RowOf(a, Map(m)), RowOf(b, Map(m))) && GoesOn(RowOf(b, Map(m)), RowOf(c, Map(m)));
    }
  }

  // ---------- what the scheduler sends ----------

  /** Only the worker that has the attempt is told of it. */
  ghost predicate SendsOwned(s: Sched, fx: seq<Effect>) {
    forall i :: 0 <= i < |fx| && fx[i].Send? && fx[i].msg.AssignMap? ==>
      fx[i].to.W? && Owned(s, fx[i].to.w, fx[i].msg.m, fx[i].msg.attempt)
  }

  lemma SendsStay(s: Sched, s': Sched, fx: seq<Effect>)
    requires SendsOwned(s, fx) && MapsGoOn(s, s')
    ensures SendsOwned(s', fx)
  {
    forall i | 0 <= i < |fx| && fx[i].Send? && fx[i].msg.AssignMap?
      ensures fx[i].to.W? && Owned(s', fx[i].to.w, fx[i].msg.m, fx[i].msg.attempt)
    {
      OwnedStays(s, s', fx[i].to.w, fx[i].msg.m, fx[i].msg.attempt);
    }
  }

  lemma SendsJoin(s: Sched, a: seq<Effect>, b: seq<Effect>)
    requires SendsOwned(s, a) && SendsOwned(s, b)
    ensures SendsOwned(s, a + b)
  {
  }

  lemma AssignOwned(s: Sched, t: TaskId)
    requires t.Map? ==> RowOf(s, t).status == Running
    ensures SendsOwned(s, SendAssign(s, t))
  {
  }

  // ---------- scheduling ----------

  lemma StartsGoOn(s: Sched, s': Sched)
    requires OnlyStarts(s, s')
    ensures MapsGoOn(s, s')
  {
    forall m ensures GoesOn(RowOf(s, Map(m)), RowOf(s', Map(m))) {
      assert Started(RowOf(s, Map(m)), RowOf(s', Map(m)), s.live);
    }
  }

  lemma StartsKeepDisks(s: Sched, s': Sched)
    requires OnlyStarts(s, s') && DisksLive(s)
    ensures DisksLive(s')
  {
    forall m | m in s'.diskAt && RowOf(s', Map(m)).status == Done ensures s'.diskAt[m] in s'.live {
      assert Started(RowOf(s, Map(m)), RowOf(s', Map(m)), s.live);
    }
  }

  /** Scheduling goes on until no task or no worker is left. */
  lemma {:induction false} ScheduleSettles(s: Sched)
    requires Placed(s)
    ensures FirstRunnable(ScheduleMr(s).0, 0).None? || FirstIdle(ScheduleMr(s).0, 0).None?
    ensures SendsOwned(ScheduleMr(s).0, ScheduleMr(s).1)
    decreases Runnables(s, 0)
  {
    var t := FirstRunnable(s, 0);
    if t.Some? && FirstIdle(s, 0).Some? {
      var w := FirstIdle(s, 0).value;
      FirstRunnableIs(s, 0);
      IdleIs(s, 0);
      PlaceFewer(s, t.value, w);
      PlacePlaced(s, t.value, w);
      var next := Place(s, t.value, w);
      ScheduleSettles(next);
      ScheduleStarts(next);
      StartsGoOn(next, ScheduleMr(next).0);
      AssignOwned(next, t.value);
      SendsStay(next, ScheduleMr(next).0, SendAssign(next, t.value));
      SendsJoin(ScheduleMr(next).0, SendAssign(next, t.value), ScheduleMr(next).1);
    }
  }

  lemma {:induction false} NoneRunnable(s: Sched, i: nat)
    requires i <= 5 && FirstRunnable(s, i).None?
    ensures forall j :: i <= j < 5 ==> !IsRunnable(s, TASK_ORDER[j])
    decreases 5 - i
  {
    if i < 5 { NoneRunnable(s, i + 1); }
  }

  /** Whatever came before, scheduling leaves the rest in order. */
  lemma ScheduleServes(s: Sched)
    requires Placed(s) && DisksLive(s) && Untouched(s)
    ensures Served(ScheduleMr(s).0) && MapsGoOn(s, ScheduleMr(s).0) && SendsOwned(ScheduleMr(s).0, ScheduleMr(s).1)
  {
    var s' := ScheduleMr(s).0;
    ScheduleOk(s);
    ScheduleStarts(s);
    ScheduleSettles(s);
    StartsGoOn(s, s');
    StartsKeepDisks(s, s');
    if FirstRunnable(s', 0).None? {
      NoneRunnable(s', 0);
      assert TASK_ORDER[3] == Red(R0) && TASK_ORDER[4] == Red(R1);
    }
    if !s'.started {
      forall t ensures RowOf(s', t).status == Waiting && RowOf(s', t).attempt == 0 {
        assert Started(RowOf(s, t), RowOf(s', t), s.live);
      }
    }
  }

  // ---------- deaths and the ping round ----------

  ghost predicate Serves(s: Sched, r: (Sched, seq<Effect>)) {
    Served(r.0) && MapsGoOn(s, r.0) && SendsOwned(r.0, r.1)
  }

  lemma SameGoesOn(s: Sched, s': Sched)
    requires forall m :: RowOf(s', Map(m)) == RowOf(s, Map(m))
    ensures MapsGoOn(s, s')
  {
  }

  lemma DeathServes(s: Sched, w: Worker)
    requires Served(s)
    ensures Serves(s, DeclareDead(s, w))
  {
    var a := LoseRunning(MarkDead(s, w), w);
    var b := LoseDisks(a, w, 3);
    LoseRunningIs(s, w);
    LoseDisksIs(a, w, 3);
    UndoneBy(s, w, a, b);
    LosePlaced(s, w);
    DisksPlaced(a, w, 3);
    UndoneServes(s, w, b);
    LoseFlags(s, w);
    ScheduleServes(b);
    GoesOnThen(s, b, ScheduleMr(b).0);
  }

  predicate SameFlags(s: Sched, s': Sched) {
    s'.started == s.started && s'.jobQueued == s.jobQueued
  }

  lemma LoseFlags(s: Sched, w: Worker)
    ensures SameFlags(s, LoseDisks(LoseRunning(MarkDead(s, w), w), w, 3))
  {
    DisksFlags(LoseRunning(MarkDead(s, w), w), w, 3);
  }

  lemma {:induction false} DisksFlags(a: Sched, w: Worker, n: nat)
    requires n <= 3
    ensures SameFlags(a, LoseDisks(a, w, n))
  {
    if n > 0 { DisksFlags(a, w, n - 1); }
  }

  lemma UndoneServes(s: Sched, w: Worker, b: Sched)
    requires Served(s) && Undone(s, w, b)
    ensures DisksLive(b) && MapsGoOn(s, b)
    ensures b.started == s.started ==> Untouched(b)
  {
    forall m | m in b.diskAt && RowOf(b, Map(m)).status == Done ensures b.diskAt[m] in b.live {
      assert RowOf(b, Map(m)) == if RunsAgain(s, w, Map(m)) then Requeued(RowOf(s, Map(m))) else RowOf(s, Map(m));
      assert m in s.diskAt && !LiesOn(s, w, m);
    }
    forall m ensures GoesOn(RowOf(s, Map(m)), RowOf(b, Map(m))) {
      assert RowOf(b, Map(m)) == if RunsAgain(s, w, Map(m)) then Requeued(RowOf(s, Map(m))) else RowOf(s, Map(m));
    }
    if b.started == s.started && !b.started {
      forall t ensures RowOf(b, t).status == Waiting && RowOf(b, t).attempt == 0 {
        assert RowOf(s, t).status == Waiting;
        assert RowOf(b, t) == if RunsAgain(s, w, t) then Requeued(RowOf(s, t)) else RowOf(s, t);
      }
    }
  }

  lemma ServesThen(s: Sched, a: (Sched, seq<Effect>), b: (Sched, seq<Effect>))
    requires Serves(s, a) && Serves(a.0, b)
    ensures Serves(s, (b.0, a.1 + b.1))
  {
    GoesOnThen(s, a.0, b.0);
    SendsStay(a.0, b.0, a.1);
  }

  lemma PingServes(s: Sched, w: Worker, now: nat)
    requires Served(s)
    ensures Serves(s, PingWorker(s, w, now))
  {
    DeathServes(s, w);
    SameGoesOn(s, s);
  }

  lemma {:induction false} PingsServe(s: Sched, now: nat, n: nat)
    requires Served(s) && n <= 3
    ensures Serves(s, PingWorkers(s, now, n))
  {
    if n > 0 {
      PingsServe(s, now, n - 1);
      var a := PingWorkers(s, now, n - 1);
      PingServes(a.0, WORKERS[n - 1], now);
      ServesThen(s, a, PingWorker(a.0, WORKERS[n - 1], now));
    } else {
      SameGoesOn(s, s);
    }
  }

  /** After the requeueing for one reduce: only finished maps that are nowhere run again. */
  ghost predicate Requeues(s: Sched, b: Sched) {
    && b == s.(tasks := b.tasks, lostAfterDone := b.lostAfterDone, reexecuted := b.reexecuted, wasted := b.wasted)
    && (forall r :: RowOf(b, Red(r)) == RowOf(s, Red(r)))
    && (forall m {:trigger RowOf(b, Map(m))} :: RowOf(b, Map(m)) == RowOf(s, Map(m))
          || (RowOf(s, Map(m)).status == Done && RowOf(b, Map(m)) == Requeued(RowOf(s, Map(m)))))
  }

  /** The reduce can fetch the map, or has, or the map is to come. */
  predicate Fetchable(s: Sched, r: ReduceTask, m: MapTask) {
    m in FetchedBy(s, r) || m in s.diskAt || RowOf(s, Map(m)).status != Done
  }

  lemma StrandRequeues(s: Sched, r: ReduceTask, m: MapTask)
    ensures Requeues(s, Strand(s, r, m)) && Fetchable(Strand(s, r, m), r, m)
  {
  }

  lemma RequeuesThen(a: Sched, b: Sched, c: Sched)
    requires Requeues(a, b) && Requeues(b, c)
    ensures Requeues(a, c)
    ensures forall r, m :: Fetchable(b, r, m) ==> Fetchable(c, r, m)
  {
    forall m ensures RowOf(c, Map(m)) == RowOf(a, Map(m))
          || (RowOf(a, Map(m)).status == Done && RowOf(c, Map(m)) == Requeued(RowOf(a, Map(m)))) {
      assert RowOf(b, Map(m)) == RowOf(a, Map(m)) || RowOf(b, Map(m)) == Requeued(RowOf(a, Map(m)));
    }
    forall r ensures RowOf(c, Red(r)) == RowOf(a, Red(r)) { assert RowOf(b, Red(r)) == RowOf(a, Red(r)); }
    forall r, m | Fetchable(b, r, m) ensures Fetchable(c, r, m) {
      assert FetchedBy(c, r) == FetchedBy(b, r);
      assert RowOf(c, Map(m)) == RowOf(b, Map(m)) || RowOf(c, Map(m)) == Requeued(RowOf(b, Map(m)));
    }
  }

  lemma {:induction false} StrandedRequeues(s: Sched, r: ReduceTask, n: nat)
    requires n <= 3
    ensures Requeues(s, Stranded(s, r, n)) && forall m :: Rank(m) < n ==> Fetchable(Stranded(s, r, n), r, m)
  {
    if n > 0 {
      StrandedRequeues(s, r, n - 1);
      var b, m := Stranded(s, r, n - 1), MAP_TASKS[n - 1];
      StrandRequeues(b, r, m);
      RequeuesThen(s, b, Strand(b, r, m));
      forall x | Rank(x) < n ensures Fetchable(Stranded(s, r, n), r, x) { RankIs(x, n - 1); }
    }
  }

  lemma RequeueForIs(s: Sched, r: ReduceTask)
    ensures Requeues(s, RequeueFor(s, r))
    ensures RowOf(s, Red(r)).status == Running ==> forall m :: Fetchable(RequeueFor(s, r), r, m)
  {
    StrandedRequeues(s, r, 3);
  }

  /** Requeueing leaves who idles as it was: no running row changes. */
  lemma {:induction false} SameBusy(s: Sched, b: Sched, w: Worker, i: nat)
    requires i <= 5 && forall t :: RunsOn(b, t, w) <==> RunsOn(s, t, w)
    ensures FirstRunning(b, w, i) == FirstRunning(s, w, i)
    decreases 5 - i
  {
    if i < 5 {
      assert RunsOn(b, TASK_ORDER[i], w) <==> RunsOn(s, TASK_ORDER[i], w);
      SameBusy(s, b, w, i + 1);
    }
  }

  lemma {:induction false} SameIdle(s: Sched, b: Sched, i: nat)
    requires i <= 3 && b.live == s.live && forall w :: Busy(b, w) <==> Busy(s, w)
    ensures FirstIdle(b, i) == FirstIdle(s, i)
    decreases 3 - i
  {
    if i < 3 { SameIdle(s, b, i + 1); }
  }

  lemma RequeuesIdle(s: Sched, b: Sched)
    requires Requeues(s, b)
    ensures FirstIdle(b, 0) == FirstIdle(s, 0)
  {
    forall w ensures Busy(b, w) <==> Busy(s, w) {
      forall t ensures RunsOn(b, t, w) <==> RunsOn(s, t, w) {
        if t.Red? { assert RowOf(b, Red(t.r)) == RowOf(s, Red(t.r)); }
      }
      SameBusy(s, b, w, 0);
    }
    SameIdle(s, b, 0);
  }

  /** With no worker idle, or no reduce to place, scheduling starts no reduce. */
  lemma NoReduceStarts(s: Sched, r: ReduceTask)
    requires ReducesServed(s)
    ensures RowOf(ScheduleMr(s).0, Red(r)) == RowOf(s, Red(r))
  {
    ScheduleStarts(s);
    assert Started(RowOf(s, Red(r)), RowOf(ScheduleMr(s).0, Red(r)), s.live);
    assert IsRunnable(s, Red(r)) ==> FirstIdle(s, 0).None?;
  }

  lemma RequeuesServed(s: Sched, b: Sched)
    requires Served(s) && Requeues(s, b) && Placed(b)
    ensures Served(b) && MapsGoOn(s, b)
  {
    RequeuesIdle(s, b);
    assert RowOf(b, Red(R0)) == RowOf(s, Red(R0)) && RowOf(b, Red(R1)) == RowOf(s, Red(R1));
    forall m ensures GoesOn(RowOf(s, Map(m)), RowOf(b, Map(m))) {
      assert RowOf(b, Map(m)) == RowOf(s, Map(m)) || RowOf(b, Map(m)) == Requeued(RowOf(s, Map(m)));
    }
    forall m | m in b.diskAt && RowOf(b, Map(m)).status == Done ensures b.diskAt[m] in b.live {
      assert RowOf(b, Map(m)) == RowOf(s, Map(m)) || RowOf(b, Map(m)) == Requeued(RowOf(s, Map(m)));
    }
    if !b.started {
      forall t ensures RowOf(b, t).status == Waiting && RowOf(b, t).attempt == 0 {
        assert RowOf(s, t).status == Waiting;
        if t.Map? { assert RowOf(b, Map(t.m)) == RowOf(s, Map(t.m)); }
        else { assert RowOf(b, Red(t.r)) == RowOf(s, Red(t.r)); }
      }
    }
  }

  lemma {:induction false} RedriveOwned(s: Sched, n: nat)
    requires n <= 5
    ensures SendsOwned(s, Redrive(s, n))
  {
    if n > 0 {
      RedriveOwned(s, n - 1);
      var t := TASK_ORDER[n - 1];
      if RunningLive(s, t) && !RowOf(s, t).acked {
        AssignOwned(s, t);
        SendsJoin(s, Redrive(s, n - 1), SendAssign(s, t));
      }
    }
  }

  predicate NoAssigns(fx: seq<Effect>) {
    forall i :: 0 <= i < |fx| && fx[i].Send? ==> !fx[i].msg.AssignMap?
  }

  lemma {:induction false} RelocateAssigns(s: Sched, r: ReduceTask, n: nat)
    requires n <= 3
    ensures NoAssigns(Relocate(s, r, n))
  {
    if n > 0 { RelocateAssigns(s, r, n - 1); }
  }

  /** What the whole round is worth: every running reduce can fetch, has fetched, or will be told of, each map. */
  ghost predicate AllFetchable(s: Sched) {
    forall r, m :: RowOf(s, Red(r)).status == Running ==> Fetchable(s, r, m)
  }

  lemma RequeuesFetchable(s: Sched)
    requires Placed(s)
    ensures var b := RequeueFor(RequeueFor(s, R0), R1); Requeues(s, b) && AllFetchable(b) && Placed(b)
  {
    var a := RequeueFor(s, R0);
    var b := RequeueFor(a, R1);
    StrandedOk(s, R0, 3);
    StrandedOk(a, R1, 3);
    RequeueForIs(s, R0);
    RequeueForIs(a, R1);
    RequeuesThen(s, a, b);
    forall r, m | RowOf(b, Red(r)).status == Running ensures Fetchable(b, r, m) {
      assert RowOf(b, Red(r)) == RowOf(a, Red(r)) && RowOf(a, Red(r)) == RowOf(s, Red(r));
      if r == R0 { assert Fetchable(a, R0, m); } else { assert Fetchable(b, R1, m); }
    }
  }

  lemma ScheduleFetchable(b: Sched)
    requires AllFetchable(b) && ReducesServed(b)
    ensures AllFetchable(ScheduleMr(b).0)
  {
    var s' := ScheduleMr(b).0;
    ScheduleStarts(b);
    forall r, m | RowOf(s', Red(r)).status == Running ensures Fetchable(s', r, m) {
      NoReduceStarts(b, r);
      assert Fetchable(b, r, m) && Started(RowOf(b, Map(m)), RowOf(s', Map(m)), b.live);
    }
  }

  lemma AfterPingsServe(s: Sched, a: (Sched, seq<Effect>))
    requires Serves(s, a)
    ensures Serves(s, AfterPings(a)) && AllFetchable(AfterPings(a).0)
  {
    var b := RequeueFor(RequeueFor(a.0, R0), R1);
    RequeuesFetchable(a.0);
    RequeuesServed(a.0, b);
    ScheduleServes(b);
    ScheduleFetchable(b);
    var r := ScheduleMr(b);
    GoesOnThen(a.0, b, r.0);
    GoesOnThen(s, a.0, r.0);
    RedriveOwned(a.0, 5);
    RelocateAssigns(a.0, R0, 3);
    RelocateAssigns(a.0, R1, 3);
    SendsStay(a.0, r.0, a.1);
    SendsStay(a.0, r.0, Redrive(a.0, 5));
  }

  lemma PingTimerServes(s: Sched, now: nat)
    requires Served(s)
    ensures Serves(s, OnPingTimer(s, now)) && AllFetchable(OnPingTimer(s, now).0)
  {
    PingsServe(s, now, 3);
    AfterPingsServe(s, PingWorkers(s, now, 3));
  }

  // ---------- the other events ----------

  /** Nothing that placement looks at moved. */
  lemma SameServed(s: Sched, s': Sched)
    requires Served(s) && s'.live == s.live && s'.diskAt == s.diskAt && s'.started == s.started
    requires forall t {:trigger RowOf(s', t)} ::
      RowOf(s', t).status == RowOf(s, t).status && RowOf(s', t).worker == RowOf(s, t).worker && RowOf(s', t).attempt == RowOf(s, t).attempt
    ensures Served(s') && MapsGoOn(s, s')
  {
    forall t ensures RunsWell(s', t) { assert RunsWell(s, t); }
    forall t, u ensures Apart(s', t, u) { assert Apart(s, t, u); }
    forall w ensures Busy(s', w) <==> Busy(s, w) {
      forall t ensures RunsOn(s', t, w) <==> RunsOn(s, t, w) {
        assert RowOf(s', t).status == RowOf(s, t).status;
      }
      SameBusy(s, s', w, 0);
    }
    SameIdle(s, s', 0);
    forall m ensures GoesOn(RowOf(s, Map(m)), RowOf(s', Map(m))) {}
    forall m | m in s'.diskAt && RowOf(s', Map(m)).status == Done ensures s'.diskAt[m] in s'.live {
      assert RowOf(s, Map(m)).status == Done;
    }
    if !s'.started {
      forall t ensures RowOf(s', t).status == Waiting && RowOf(s', t).attempt == 0 { assert RowOf(s, t).status == Waiting; }
    }
    assert RowOf(s', Red(R0)).status == RowOf(s, Red(R0)).status && RowOf(s', Red(R1)).status == RowOf(s, Red(R1)).status;
  }

  lemma StartJobServes(s: Sched)
    requires Served(s) && !s.started
    ensures Serves(s, OnStartJob(s))
  {
    var t := s.(started := true, phase := MapPhase,
      tasks := s.tasks.(m0 := Readied(s.tasks.m0), m1 := Readied(s.tasks.m1), m2 := Readied(s.tasks.m2)));
    forall u ensures RowOf(t, u) == RowOf(s, u) || RowOf(t, u).status != Running { StartedRow(s.tasks, u); }
    CalmRows(s, t);
    forall m ensures GoesOn(RowOf(s, Map(m)), RowOf(t, Map(m))) && RowOf(t, Map(m)).status == Runnable {
      assert RowOf(s, Map(m)).status == Waiting;
    }
    ScheduleServes(t);
    GoesOnThen(s, t, ScheduleMr(t).0);
  }

  lemma PongServes(s: Sched, w: Worker, incarnation: nat, now: nat)
    requires Served(s)
    ensures Serves(s, OnPong(s, w, incarnation, now))
  {
    var t := s.(lastPong := With(s.lastPong, w, now));
    SameServed(s, t);
    var back := t.(live := t.live + {w});
    SameRows(t, back);
    assert forall u :: RowOf(back, u) == RowOf(t, u);
    ScheduleServes(back);
    SameGoesOn(s, back);
    GoesOnThen(s, back, ScheduleMr(back).0);
  }

  lemma RecordServes(s: Sched, t: TaskId, attempt: nat)
    requires Served(s)
    ensures Serves(s, (OnRecordDone(s, t, attempt), []))
  {
    SameServed(s, OnRecordDone(s, t, attempt));
  }

  lemma FetchedServes(s: Sched, m: MapTask, r: ReduceTask, attempt: nat)
    requires Served(s)
    ensures Serves(s, (OnFetched(s, m, r, attempt), []))
  {
    var row := RowOf(s, Red(r));
    var t := WithRow(s, Red(r), row.(acked := true));
    SameServed(s, s);
    SameServed(s, t);
    SameServed(s, WithFetched(t, r, FetchedBy(s, r) + [m]));
  }

  /** The map is done, and its output with a live worker. */
  lemma MappedServed(s: Sched, w: Worker, m: MapTask, attempt: nat)
    requires Served(s) && Owned(s, w, m, attempt) && attempt == RowOf(s, Map(m)).attempt && RowOf(s, Map(m)).status == Running
    ensures var t := Mapped(s, w, m); Placed(t) && DisksLive(t) && Untouched(t) && MapsGoOn(s, t)
  {
    var t := Mapped(s, w, m);
    assert RunsWell(s, Map(m));
    RowPlaced(s, t, Map(m));
    forall x | x in t.diskAt && RowOf(t, Map(x)).status == Done ensures t.diskAt[x] in t.live {
      if x != m { assert RowOf(t, Map(x)) == RowOf(s, Map(x)); }
    }
    forall x ensures GoesOn(RowOf(s, Map(x)), RowOf(t, Map(x))) {
      if x != m { assert RowOf(t, Map(x)) == RowOf(s, Map(x)); }
    }
    StartedBy(s, Map(m));
  }

  lemma BarrierServes(t: Sched)
    requires Placed(t) && DisksLive(t) && t.started
    ensures Placed(Barrier(t)) && DisksLive(Barrier(t)) && Untouched(Barrier(t)) && MapsGoOn(t, Barrier(t))
  {
    var b := Barrier(t);
    forall u ensures RowOf(b, u) == RowOf(t, u) || RowOf(b, u).status != Running {}
    CalmRows(t, b);
    forall m ensures RowOf(b, Map(m)) == RowOf(t, Map(m)) {}
    SameGoesOn(t, b);
  }

  lemma MapDoneServes(s: Sched, w: Worker, m: MapTask, attempt: nat)
    requires Served(s) && Owned(s, w, m, attempt)
    ensures Serves(s, OnMapDone(s, w, m, attempt))
  {
    if attempt == RowOf(s, Map(m)).attempt && RowOf(s, Map(m)).status == Running {
      var t := Mapped(s, w, m);
      MappedServed(s, w, m, attempt);
      StartedBy(t, Map(m));
      MappedOnServes(s, t, w, m);
    } else {
      SameGoesOn(s, s);
    }
  }

  lemma MappedOnServes(s: Sched, t: Sched, w: Worker, m: MapTask)
    requires Placed(t) && DisksLive(t) && Untouched(t) && MapsGoOn(s, t) && t.started
    ensures Serves(s, MappedOn(t, w, m))
  {
    if t.phase == MapPhase && MapsDone(t) {
      BarrierServes(t);
      ScheduleServes(Barrier(t));
      GoesOnThen(s, t, Barrier(t));
      GoesOnThen(s, Barrier(t), ScheduleMr(Barrier(t)).0);
    } else {
      ScheduleServes(t);
      GoesOnThen(s, t, ScheduleMr(t).0);
    }
  }

  lemma ReduceDoneServes(job: Job, s: Sched, r: ReduceTask, attempt: nat, rows: seq<Row>, now: nat)
    requires Served(s)
    ensures Serves(s, OnReduceDone(job, s, r, attempt, rows, now))
  {
    var row := RowOf(s, Red(r));
    if attempt == row.attempt && row.status == Running {
      var t := WithRow(s, Red(r), row.(acked := true, status := Done)).(output := s.output + rows);
      RowPlaced(s, t, Red(r));
      assert forall m :: RowOf(t, Map(m)) == RowOf(s, Map(m));
      StartedBy(s, Red(r));
      SameGoesOn(s, t);
      if ReducesDone(t) {
        var d := t.(phase := DonePhase, completionTick := Some(now), output := SortRows(job, t.output));
        SameRows(t, d);
        SameGoesOn(s, d);
      } else {
        ScheduleServes(t);
        GoesOnThen(s, t, ScheduleMr(t).0);
      }
    } else {
      SameGoesOn(s, s);
    }
  }

  // ---------- workers and packets ----------

  ghost predicate RunOwned(jt: Sched, w: Worker, s: State) {
    s.run.Some? && s.run.value.task.Map? ==> Owned(jt, w, s.run.value.task.m, s.run.value.attempt)
  }

  ghost predicate PacketOwned(jt: Sched, p: Packet) {
    && (p.msg.AssignMap? ==> p.to.W? && Owned(jt, p.to.w, p.msg.m, p.msg.attempt))
    && (p.msg.MapDone? && p.from.W? ==> Owned(jt, p.from.w, p.msg.m, p.msg.attempt))
  }

  /** A worker reports only maps it was given, and assigns none. */
  ghost predicate ReportsOwned(jt: Sched, w: Worker, fx: seq<Effect>) {
    forall i :: 0 <= i < |fx| && fx[i].Send? ==>
      !fx[i].msg.AssignMap? && (fx[i].msg.MapDone? ==> Owned(jt, w, fx[i].msg.m, fx[i].msg.attempt))
  }

  lemma {:induction false} FetchesReport(jt: Sched, w: Worker, run: Run, r: ReduceTask, n: nat)
    requires n <= 3
    ensures ReportsOwned(jt, w, Fetches(run, r, n))
  {
    if n > 0 { FetchesReport(jt, w, run, r, n - 1); }
  }

  lemma TimerReports(job: Job, jt: Sched, w: Worker, s: State, t: Timer, now: nat)
    requires RunOwned(jt, w, s)
    ensures RunOwned(jt, w, OnTimer(job, s, t, now).0) && ReportsOwned(jt, w, OnTimer(job, s, t, now).1)
  {
    match t {
      case MrFetchRetry(r, attempt, nonce) => { if s.run.Some? { FetchesReport(jt, w, s.run.value, r, 3); } }
      case _ => {}
    }
  }

  lemma MessageReports(job: Job, jt: Sched, w: Worker, s: State, from: NodeId, msg: Msg, now: nat)
    requires RunOwned(jt, w, s) && (msg.AssignMap? ==> Owned(jt, w, msg.m, msg.attempt))
    ensures RunOwned(jt, w, OnMessage(job, s, from, msg, now).0) && ReportsOwned(jt, w, OnMessage(job, s, from, msg, now).1)
  {
    match msg {
      case AssignReduce(r, attempt, sources) => {
        FetchesReport(jt, w, Run(Red(r), attempt, Fetching, 0, job.execs(r), sources, map[], 0, 0), r, 3);
      }
      case _ => {}
    }
  }

  // ---------- runs ----------

  ghost predicate AllServed(c: Cluster) {
    && Served(c.jt)
    && (forall w {:trigger c.ws[w]} :: w in c.ws ==> RunOwned(c.jt, w, c.ws[w]))
    && (forall p :: p in c.net ==> PacketOwned(c.jt, p))
  }

  lemma {:induction false} InPackets(from: NodeId, fx: seq<Effect>, p: Packet)
    requires p in Packets(from, fx)
    ensures p.from == from && exists i :: 0 <= i < |fx| && fx[i] == Send(p.to, p.msg)
  {
    if fx != [] {
      var n := |fx| - 1;
      if p in Packets(from, fx[..n]) {
        InPackets(from, fx[..n], p);
        var i :| 0 <= i < n && fx[..n][i] == Send(p.to, p.msg);
        assert fx[i] == fx[..n][i];
      } else {
        assert fx[n] == Send(p.to, p.msg);
      }
    }
  }

  lemma JtServes(c: Cluster, r: (Sched, seq<Effect>))
    requires AllServed(c) && Serves(c.jt, r)
    ensures AllServed(JtStep(c, r))
  {
    var c' := JtStep(c, r);
    forall w | w in c'.ws ensures RunOwned(c'.jt, w, c'.ws[w]) {
      var s := c.ws[w];
      assert RunOwned(c.jt, w, s);
      if s.run.Some? && s.run.value.task.Map? { OwnedStays(c.jt, r.0, w, s.run.value.task.m, s.run.value.attempt); }
    }
    forall p | p in c'.net ensures PacketOwned(c'.jt, p) {
      if p in c.net {
        assert PacketOwned(c.jt, p);
        if p.msg.AssignMap? { OwnedStays(c.jt, r.0, p.to.w, p.msg.m, p.msg.attempt); }
        if p.msg.MapDone? && p.from.W? { OwnedStays(c.jt, r.0, p.from.w, p.msg.m, p.msg.attempt); }
      } else {
        InPackets(JT, r.1, p);
      }
    }
  }

  lemma WorkerServes(c: Cluster, w: Worker, r: (State, seq<Effect>))
    requires AllServed(c) && RunOwned(c.jt, w, r.0) && ReportsOwned(c.jt, w, r.1)
    ensures AllServed(WorkerStep(c, w, r))
  {
    var c' := WorkerStep(c, w, r);
    forall p | p in c'.net ensures PacketOwned(c'.jt, p) {
      if p !in c.net { InPackets(W(w), r.1, p); }
    }
  }

  /** The hop timer fires only when it is due. */
  ghost predicate StartsDue(c: Cluster, a: Action) {
    a.FireJt? && a.timer == StartJob ==> !c.jt.started
  }

  lemma StepServes(job: Job, c: Cluster, a: Action)
    requires AllServed(c) && Enabled(c, a) && StartsDue(c, a)
    ensures AllServed(Step(job, c, a))
  {
    match a {
      case RunJob => {
        SameServed(c.jt, OnRunJob(c.jt).0);
        JtServes(c, OnRunJob(c.jt));
      }
      case DeliverJt(p, now) => {
        assert PacketOwned(c.jt, p);
        MsgServes(job, c.jt, p.from.w, p.msg, now);
        JtServes(c, OnMsg(job, c.jt, p.from.w, p.msg, now));
      }
      case FireJt(t, now) => {
        TimerServes(c.jt, t, now);
        JtServes(c, OnSchedTimer(c.jt, t, now));
      }
      case DeliverW(p, now) => {
        assert PacketOwned(c.jt, p);
        MessageReports(job, c.jt, p.to.w, c.ws[p.to.w], p.from, p.msg, now);
        WorkerServes(c, p.to.w, OnMessage(job, c.ws[p.to.w], p.from, p.msg, now));
      }
      case FireW(w, t, now) => {
        TimerReports(job, c.jt, w, c.ws[w], t, now);
        WorkerServes(c, w, OnTimer(job, c.ws[w], t, now));
      }
    }
  }

  lemma MsgServes(job: Job, s: Sched, w: Worker, msg: Msg, now: nat)
    requires Served(s) && (msg.MapDone? ==> Owned(s, w, msg.m, msg.attempt))
    ensures Serves(s, OnMsg(job, s, w, msg, now))
  {
    match msg {
      case Pong(incarnation) => { PongServes(s, w, incarnation, now); }
      case RecordDone(t, attempt) => { RecordServes(s, t, attempt); }
      case MapDone(m, attempt) => { MapDoneServes(s, w, m, attempt); }
      case Fetched(m, r, attempt) => { FetchedServes(s, m, r, attempt); }
      case ReduceDone(r, attempt, rows) => { ReduceDoneServes(job, s, r, attempt, rows, now); }
      case _ => { SameGoesOn(s, s); }
    }
  }

  lemma TimerServes(s: Sched, t: Timer, now: nat)
    requires Served(s) && (t == StartJob ==> !s.started)
    ensures Serves(s, OnSchedTimer(s, t, now))
  {
    match t {
      case PingTimer => { PingTimerServes(s, now); }
      case StartJob => { StartJobServes(s); }
      case _ => { SameGoesOn(s, s); }
    }
  }

  lemma StartServed()
    ensures AllServed(Start())
  {
    var s := InitSched();
    forall t ensures RowOf(s, t) == FRESH_ROW {}
  }

  // ---------- when the job starts ----------

  lemma PingFlags(s: Sched, w: Worker, now: nat)
    ensures SameFlags(s, PingWorker(s, w, now).0)
  {
    LoseFlags(s, w);
    ScheduleStarts(LoseDisks(LoseRunning(MarkDead(s, w), w), w, 3));
  }

  lemma {:induction false} PingsFlags(s: Sched, now: nat, n: nat)
    requires n <= 3
    ensures SameFlags(s, PingWorkers(s, now, n).0)
  {
    if n > 0 {
      PingsFlags(s, now, n - 1);
      PingFlags(PingWorkers(s, now, n - 1).0, WORKERS[n - 1], now);
    }
  }

  lemma RoundFlags(s: Sched, now: nat)
    ensures SameFlags(s, OnPingTimer(s, now).0)
  {
    var a := PingWorkers(s, now, 3).0;
    PingsFlags(s, now, 3);
    RequeueForIs(a, R0);
    RequeueForIs(RequeueFor(a, R0), R1);
    ScheduleStarts(RequeueFor(RequeueFor(a, R0), R1));
  }

  lemma MsgFlags(job: Job, s: Sched, w: Worker, msg: Msg, now: nat)
    ensures SameFlags(s, OnMsg(job, s, w, msg, now).0)
  {
    match msg {
      case Pong(incarnation) => {
        var t := s.(lastPong := With(s.lastPong, w, now));
        ScheduleStarts(t.(live := t.live + {w}));
      }
      case MapDone(m, attempt) => {
        ScheduleStarts(Mapped(s, w, m));
        ScheduleStarts(Barrier(Mapped(s, w, m)));
      }
      case ReduceDone(r, attempt, rows) => {
        ScheduleStarts(WithRow(s, Red(r), RowOf(s, Red(r)).(acked := true, status := Done)).(output := s.output + rows));
      }
      case _ => {}
    }
  }

  lemma StartFlags(s: Sched)
    ensures OnStartJob(s).0.started && OnStartJob(s).0.jobQueued == s.jobQueued
  {
    ScheduleStarts(s.(started := true, phase := MapPhase,
      tasks := s.tasks.(m0 := Readied(s.tasks.m0), m1 := Readied(s.tasks.m1), m2 := Readied(s.tasks.m2))));
  }

  /** How often an action sets the hop timer, less how often it fires it. */
  function Hop(c: Cluster, a: Action): int {
    if a == RunJob && SetTimer(1, StartJob) in OnRunJob(c.jt).1 then 1 else if a.FireJt? && a.timer == StartJob then -1 else 0
  }

  ghost function Hops(job: Job, acts: seq<Action>): int
    requires Runs(job, Start(), acts)
  {
    if acts == [] then 0
    else Hops(job, acts[..|acts| - 1]) + Hop(Exec(job, Start(), acts[..|acts| - 1]), acts[|acts| - 1])
  }

  /** In the run the hop timer fires only while it is set. */
  ghost predicate Timely(job: Job, acts: seq<Action>)
    requires Runs(job, Start(), acts)
  {
    acts == [] || (Timely(job, acts[..|acts| - 1])
                   && (acts[|acts| - 1].FireJt? && acts[|acts| - 1].timer == StartJob ==> Hops(job, acts[..|acts| - 1]) > 0))
  }

  /** The timer is set exactly between the latching of the job and its start. */
  predicate HopSet(s: Sched) { s.jobQueued && !s.started }

  predicate Latched(s: Sched) { s.started ==> s.jobQueued }

  lemma StepHops(job: Job, c: Cluster, a: Action)
    requires Enabled(c, a) && Latched(c.jt) && (a.FireJt? && a.timer == StartJob ==> HopSet(c.jt))
    ensures Latched(Step(job, c, a).jt)
    ensures (if HopSet(Step(job, c, a).jt) then 1 else 0) == (if HopSet(c.jt) then 1 else 0) + Hop(c, a)
  {
    match a {
      case RunJob => {}
      case DeliverJt(p, now) => { MsgFlags(job, c.jt, p.from.w, p.msg, now); }
      case FireJt(t, now) => {
        RoundFlags(c.jt, now);
        StartFlags(c.jt);
      }
      case DeliverW(p, now) => {}
      case FireW(w, t, now) => {}
    }
  }

  lemma {:induction false} HopsAre(job: Job, acts: seq<Action>)
    requires Runs(job, Start(), acts) && Timely(job, acts)
    ensures Latched(Exec(job, Start(), acts).jt) && Hops(job, acts) == if HopSet(Exec(job, Start(), acts).jt) then 1 else 0
  {
    if acts != [] {
      HopsAre(job, acts[..|acts| - 1]);
      StepHops(job, Exec(job, Start(), acts[..|acts| - 1]), acts[|acts| - 1]);
    }
  }

  // ---------- the theorems ----------

  lemma {:induction false} ExecServes(job: Job, acts: seq<Action>)
    requires Runs(job, Start(), acts) && Timely(job, acts)
    ensures AllServed(Exec(job, Start(), acts))
  {
    if acts == [] {
      StartServed();
    } else {
      ExecServes(job, acts[..|acts| - 1]);
      HopsAre(job, acts[..|acts| - 1]);
      StepServes(job, Exec(job, Start(), acts[..|acts| - 1]), acts[|acts| - 1]);
    }
  }

  /** In every reachable state the listed output of a finished map is on a live worker. */
  lemma FinishedOnLive(job: Job, acts: seq<Action>, m: MapTask)
    requires Runs(job, Start(), acts) && Timely(job, acts)
    ensures var s := Exec(job, Start(), acts).jt; m in s.diskAt && RowOf(s, Map(m)).status == Done ==> s.diskAt[m] in s.live
  {
    ExecServes(job, acts);
  }

  /** After every ping round each map that a running reduce has not fetched is still to come, or its output is on a
      live worker: no reduce is left waiting for a file that is nowhere. */
  lemma PingRoundServes(job: Job, acts: seq<Action>, now: nat, r: ReduceTask, m: MapTask)
    requires var all := acts + [FireJt(PingTimer, now)]; Runs(job, Start(), all) && Timely(job, all)
    ensures var s := Exec(job, Start(), acts + [FireJt(PingTimer, now)]).jt;
      RowOf(s, Red(r)).status == Running && m !in FetchedBy(s, r) ==>
        RowOf(s, Map(m)).status != Done || (m in s.diskAt && s.diskAt[m] in s.live)
  {
    var all := acts + [FireJt(PingTimer, now)];
    assert all[..|all| - 1] == acts;
    ExecServes(job, acts);
    PingTimerServes(Exec(job, Start(), acts).jt, now);
    var s := Exec(job, Start(), all).jt;
    assert RowOf(s, Red(r)).status == Running ==> Fetchable(s, r, m);
  }
}
