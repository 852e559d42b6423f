/** The scheduler and the worker as they run: rows, disks and counters changed in place, proved against the
    functions of BatchSched and BatchWorker. */
module BatchNodes {
  import opened BatchShared
  import opened BatchWorker
  import opened BatchSched

  /** What is left to schedule after some effects. */
  ghost predicate Scheduling(goal: (Sched, seq<Effect>), s: Sched, fx: seq<Effect>) {
    goal.0 == ScheduleMr(s).0 && goal.1 == fx + ScheduleMr(s).1
  }

  lemma SchedulingStarts(goal: (Sched, seq<Effect>))
    ensures [] + goal.1 == goal.1
  {
  }

  lemma SchedulingEnds(goal: (Sched, seq<Effect>), s: Sched, fx: seq<Effect>)
    requires Scheduling(goal, s, fx) && (FirstRunnable(s, 0).None? || FirstIdle(s, 0).None?)
    ensures goal == (s, fx)
  {
    assert fx + [] == fx;
  }

  lemma SchedulingStep(goal: (Sched, seq<Effect>), s: Sched, fx: seq<Effect>)
    requires Scheduling(goal, s, fx) && FirstRunnable(s, 0).Some? && FirstIdle(s, 0).Some?
    ensures var t := FirstRunnable(s, 0).value; var next := Place(s, t, FirstIdle(s, 0).value);
      Runnables(next, 0) < Runnables(s, 0) && Scheduling(goal, next, fx + SendAssign(next, t))
  {
    var t, w := FirstRunnable(s, 0).value, FirstIdle(s, 0).value;
    FirstRunnableIs(s, 0);
    PlaceFewer(s, t, w);
    var next := Place(s, t, w);
    assert fx + (SendAssign(next, t) + ScheduleMr(next).1) == (fx + SendAssign(next, t)) + ScheduleMr(next).1;
  }

  class Scheduler {
    var started: bool
    var jobQueued: bool
    var lastPong: PerWorker
    var live: set<Worker>
    var incarnation: PerWorker
    var phase: MrPhase
    var tasks: Tasks
    var diskAt: map<MapTask, Worker>
    var fetched0: seq<MapTask>
    var fetched1: seq<MapTask>
    var materialized: nat
    var reexecuted: nat
    var lostAfterDone: nat
    var wasted: nat
    var completionTick: Option<nat>
    var output: seq<Row>

    ghost function View(): Sched
      reads this
    {
      Sched(started, jobQueued, lastPong, live, incarnation, phase, tasks, diskAt, fetched0, fetched1,
            materialized, reexecuted, lostAfterDone, wasted, completionTick, output)
    }

    constructor ()
      ensures View() == InitSched()
    {
      started, jobQueued, lastPong, live, incarnation := false, false, PerWorker(0, 0, 0), {W1, W2, W3}, PerWorker(0, 0, 0);
      phase, tasks := IdlePhase, Tasks(FRESH_ROW, FRESH_ROW, FRESH_ROW, FRESH_ROW, FRESH_ROW);
      diskAt, fetched0, fetched1 := map[], [], [];
      materialized, reexecuted, lostAfterDone, wasted, completionTick, output := 0, 0, 0, 0, None, [];
    }

    method FindRunnable() returns (t: Option<TaskId>)
      ensures t == FirstRunnable(View(), 0)
    {
      for i := 0 to 5
        invariant FirstRunnable(View(), 0) == FirstRunnable(View(), i)
      {
        if RowIn(tasks, TASK_ORDER[i]).status == Runnable { return Some(TASK_ORDER[i]); }
      }
      return None;
    }

    method FindRunning(w: Worker) returns (t: Option<TaskId>)
      ensures t == FirstRunning(View(), w, 0)
    {
      for i := 0 to 5
        invariant FirstRunning(View(), w, 0) == FirstRunning(View(), w, i)
      {
        var row := RowIn(tasks, TASK_ORDER[i]);
        if row.status == Running && row.worker == Some(w) { return Some(TASK_ORDER[i]); }
      }
      return None;
    }

    method FindIdle() returns (w: Option<Worker>)
      ensures w == FirstIdle(View(), 0)
    {
      for i := 0 to 3
        invariant FirstIdle(View(), 0) == FirstIdle(View(), i)
      {
        var busy := FindRunning(WORKERS[i]);
        if WORKERS[i] in live && busy.None? { return Some(WORKERS[i]); }
      }
      return None;
    }

    method AssignEffects(t: TaskId) returns (fx: seq<Effect>)
      ensures fx == SendAssign(View(), t)
    {
      var row := RowIn(tasks, t);
      if row.worker.None? { return []; }
      var msg := if t.Red? then AssignReduce(t.r, row.attempt, diskAt) else AssignMap(t.m, row.attempt);
      return [Send(W(row.worker.value), msg)];
    }

    method PlaceTask(t: TaskId, w: Worker)
      modifies this`tasks
      ensures View() == Place(old(View()), t, w)
    {
      var row := RowIn(tasks, t);
      tasks := WithRowIn(tasks, t, row.(status := Running, worker := Some(w), execTicks := 0, acked := false));
    }

    method ScheduleTasks() returns (fx: seq<Effect>)
      modifies this`tasks
      ensures (View(), fx) == ScheduleMr(old(View()))
    {
      fx := [];
      ghost var goal := ScheduleMr(View());
      SchedulingStarts(goal);
      while true
        invariant Scheduling(goal, View(), fx)
        decreases Runnables(View(), 0)
      {
        var task := FindRunnable();
        var w := FindIdle();
        if task.None? || w.None? {
          SchedulingEnds(goal, View(), fx);
          return;
        }
        SchedulingStep(goal, View(), fx);
        PlaceTask(task.value, w.value);
        var sent := AssignEffects(task.value);
        fx := fx + sent;
      }
    }

    method Interrupt(t: TaskId)
      modifies this
      ensures View() == Interrupted(old(View()), t)
    {
      var row := RowIn(tasks, t);
      wasted, reexecuted := wasted + row.execTicks, reexecuted + 1;
      tasks := WithRowIn(tasks, t, Requeued(row));
      if t == Red(R0) { fetched0 := []; }
      if t == Red(R1) { fetched1 := []; }
    }

    method LoseRunningTask(w: Worker)
      modifies this
      ensures View() == LoseRunning(old(View()), w)
    {
      var t := FindRunning(w);
      if t.Some? { Interrupt(t.value); }
    }

    method RunAgain(m: MapTask)
      modifies this
      ensures View() == Rerun(old(View()), m)
    {
      lostAfterDone, reexecuted, wasted := lostAfterDone + 1, reexecuted + 1, wasted + MAP_EXEC_TICKS;
      tasks := WithRowIn(tasks, Map(m), Requeued(RowIn(tasks, Map(m))));
    }

    method LoseDiskOf(w: Worker, m: MapTask)
      modifies this
      ensures View() == LoseDisk(old(View()), w, m)
    {
      if m !in diskAt || diskAt[m] != w || RowIn(tasks, Map(m)).status != Done { return; }
      var stillNeeded := (tasks.r0.status != Done && m !in fetched0) || (tasks.r1.status != Done && m !in fetched1);
      diskAt := diskAt - {m};
      if stillNeeded { RunAgain(m); }
    }

    method Bury(w: Worker)
      modifies this`live, this`incarnation
      ensures View() == MarkDead(old(View()), w)
    {
      live, incarnation := live - {w}, With(incarnation, w, Of(incarnation, w) + 1);
    }

    method DeclareDeadWorker(w: Worker) returns (fx: seq<Effect>)
      modifies this
      ensures (View(), fx) == DeclareDead(old(View()), w)
    {
      Bury(w);
      LoseRunningTask(w);
      ghost var lost := View();
      for i := 0 to 3
        invariant View() == LoseDisks(lost, w, i)
      {
        LoseDiskOf(w, MAP_TASKS[i]);
      }
      fx := ScheduleTasks();
    }

    method PingAll(now: nat) returns (fx: seq<Effect>)
      modifies this
      ensures (View(), fx) == PingWorkers(old(View()), now, 3)
    {
      fx := [];
      ghost var s := View();
      for i := 0 to 3
        invariant (View(), fx) == PingWorkers(s, now, i)
      {
        var dead := [];
        if WORKERS[i] in live && now > Of(lastPong, WORKERS[i]) + DEAD_AFTER { dead := DeclareDeadWorker(WORKERS[i]); }
        fx := fx + (dead + [Send(W(WORKERS[i]), Ping)]);
      }
    }

    method RedriveAll() returns (fx: seq<Effect>)
      ensures fx == Redrive(View(), 5)
    {
      fx := [];
      for i := 0 to 5
        invariant fx == Redrive(View(), i)
      {
        var row := RowIn(tasks, TASK_ORDER[i]);
        if row.status == Running && row.worker.Some? && row.worker.value in live && !row.acked {
          var sent := AssignEffects(TASK_ORDER[i]);
          fx := fx + sent;
        }
      }
    }

    method RelocateFor(r: ReduceTask) returns (fx: seq<Effect>)
      ensures fx == if RunningLive(View(), Red(r)) then Relocate(View(), r, 3) else []
    {
      fx := [];
      var row := RowIn(tasks, Red(r));
      if row.status == Running && row.worker.Some? && row.worker.value in live {
        for i := 0 to 3
          invariant fx == Relocate(View(), r, i)
        {
          if MAP_TASKS[i] in diskAt { fx := fx + [Send(W(row.worker.value), MapRelocated(MAP_TASKS[i], diskAt[MAP_TASKS[i]]))]; }
        }
      }
    }

    method RequeueStranded(r: ReduceTask)
      modifies this
      ensures View() == RequeueFor(old(View()), r)
    {
      if RowIn(tasks, Red(r)).status == Running {
        ghost var s := View();
        for i := 0 to 3
          invariant View() == Stranded(s, r, i)
        {
          StrandTask(r, MAP_TASKS[i]);
        }
      }
    }

    method StrandTask(r: ReduceTask, m: MapTask)
      modifies this
      ensures View() == Strand(old(View()), r, m)
    {
      var fetched := if r == R0 then fetched0 else fetched1;
      if m !in fetched && m !in diskAt && RowIn(tasks, Map(m)).status == Done { RunAgain(m); }
    }

    method PingRound(now: nat) returns (fx: seq<Effect>)
      modifies this
      ensures (View(), fx) == OnPingTimer(old(View()), now)
    {
      fx := PingAll(now);
      var again := RedriveAll();
      var moved0 := RelocateFor(R0);
      var moved1 := RelocateFor(R1);
      RequeueStranded(R0);
      RequeueStranded(R1);
      var placed := ScheduleTasks();
      fx := fx + again + (moved0 + moved1) + placed + [SetTimer(PING_EVERY, PingTimer)];
    }

    method StartTheJob() returns (fx: seq<Effect>)
      modifies this
      ensures (View(), fx) == OnStartJob(old(View()))
    {
      started, phase := true, MapPhase;
      tasks := tasks.(m0 := Readied(tasks.m0), m1 := Readied(tasks.m1), m2 := Readied(tasks.m2));
      fx := ScheduleTasks();
    }

    method TakePong(w: Worker, n: nat, now: nat) returns (fx: seq<Effect>)
      modifies this
      ensures (View(), fx) == OnPong(old(View()), w, n, now)
    {
      fx := [];
      lastPong := With(lastPong, w, now);
      if w !in live {
        if n == Of(incarnation, w) {
          live := live + {w};
          fx := ScheduleTasks();
        } else {
          fx := [Send(W(w), Reset(Of(incarnation, w)))];
        }
      }
    }

    method TakeRecordDone(t: TaskId, attempt: nat)
      modifies this`tasks
      ensures View() == OnRecordDone(old(View()), t, attempt)
    {
      var row := RowIn(tasks, t);
      if attempt == row.attempt && row.status == Running {
        tasks := WithRowIn(tasks, t, row.(execTicks := row.execTicks + RECORD_COST, acked := true));
      }
    }

    method TellReducers(m: MapTask, w: Worker) returns (fx: seq<Effect>)
      ensures fx == TellReducer(View(), R0, m, w) + TellReducer(View(), R1, m, w)
    {
      fx := [];
      if tasks.r0.status == Running && tasks.r0.worker.Some? { fx := fx + [Send(W(tasks.r0.worker.value), MapRelocated(m, w))]; }
      if tasks.r1.status == Running && tasks.r1.worker.Some? { fx := fx + [Send(W(tasks.r1.worker.value), MapRelocated(m, w))]; }
    }

    method RecordMap(w: Worker, m: MapTask)
      modifies this
      ensures View() == Mapped(old(View()), w, m)
    {
      tasks := WithRowIn(tasks, Map(m), RowIn(tasks, Map(m)).(acked := true, status := Done));
      diskAt, materialized := diskAt[m := w], materialized + MAP_RECORDS;
    }

    /** Opens the reduce phase, or points running reducers at the new disk. */
    method AfterMap(w: Worker, m: MapTask) returns (fx: seq<Effect>)
      modifies this
      ensures (View(), fx) == MappedOn(old(View()), w, m)
    {
      var told := [];
      if phase == MapPhase && tasks.m0.status == Done && tasks.m1.status == Done && tasks.m2.status == Done {
        phase := ReducePhase;
        tasks := tasks.(r0 := Unblocked(tasks.r0), r1 := Unblocked(tasks.r1));
      } else if phase == ReducePhase {
        told := TellReducers(m, w);
      }
      fx := ScheduleTasks();
      if told != [] { fx := told + fx; }
      assert told == [] ==> told + fx == fx;
    }

    method TakeMapDone(w: Worker, m: MapTask, attempt: nat) returns (fx: seq<Effect>)
      modifies this
      ensures (View(), fx) == OnMapDone(old(View()), w, m, attempt)
    {
      fx := [];
      var row := RowIn(tasks, Map(m));
      if attempt == row.attempt && row.status == Running {
        RecordMap(w, m);
        fx := AfterMap(w, m);
      }
    }

    method TakeFetched(m: MapTask, r: ReduceTask, attempt: nat)
      modifies this
      ensures View() == OnFetched(old(View()), m, r, attempt)
    {
      var row := RowIn(tasks, Red(r));
      if attempt != row.attempt { return; }
      tasks := WithRowIn(tasks, Red(r), row.(acked := true));
      if r == R0 && m !in fetched0 { fetched0 := fetched0 + [m]; }
      if r == R1 && m !in fetched1 { fetched1 := fetched1 + [m]; }
    }

    method TakeReduceDone(job: Job, r: ReduceTask, attempt: nat, rows: seq<Row>, now: nat) returns (fx: seq<Effect>)
      modifies this
      ensures (View(), fx) == OnReduceDone(job, old(View()), r, attempt, rows, now)
    {
      fx := [];
      var row := RowIn(tasks, Red(r));
      if attempt != row.attempt || row.status != Running { return; }
      tasks := WithRowIn(tasks, Red(r), row.(acked := true, status := Done));
      output := output + rows;
      if tasks.r0.status == Done && tasks.r1.status == Done {
        phase, completionTick, output := DonePhase, Some(now), SortRows(job, output);
      } else {
        fx := ScheduleTasks();
      }
    }

    /** Latches the one job of an epoch, and defers it by a tick. */
    method QueueJob() returns (fx: seq<Effect>)
      modifies this`jobQueued
      ensures (View(), fx) == OnRunJob(old(View()))
    {
      if jobQueued { return []; }
      jobQueued := true;
      fx := [SetTimer(1, StartJob)];
    }

    method TakeMessage(job: Job, w: Worker, msg: Msg, now: nat) returns (fx: seq<Effect>)
      modifies this
      ensures (View(), fx) == OnMsg(job, old(View()), w, msg, now)
    {
      fx := [];
      match msg {
        case Pong(n) => { fx := TakePong(w, n, now); }
        case RecordDone(t, attempt) => { TakeRecordDone(t, attempt); }
        case MapDone(m, attempt) => { fx := TakeMapDone(w, m, attempt); }
        case Fetched(m, r, attempt) => { TakeFetched(m, r, attempt); }
        case ReduceDone(r, attempt, rows) => { fx := TakeReduceDone(job, r, attempt, rows, now); }
        case _ => {}
      }
    }

    method TakeTimer(t: Timer, now: nat) returns (fx: seq<Effect>)
      modifies this
      ensures (View(), fx) == OnSchedTimer(old(View()), t, now)
    {
      fx := [];
      match t {
        case PingTimer => { fx := PingRound(now); }
        case StartJob => { fx := StartTheJob(); }
        case _ => {}
      }
    }
  }

  class WorkerNode {
    const id: Worker
    var incarnation: nat
    var run: Option<Run>
    var disk: map<MapTask, (PartFile, PartFile)>

    ghost function View(): State
      reads this
    {
      State(id, incarnation, run, disk)
    }

    constructor (w: Worker)
      ensures View() == Init(w)
    {
      id, incarnation, run, disk := w, 0, None, map[];
    }

    /** Starts the next link of the timer chain of the current run. */
    method ArmChain(now: nat) returns (fx: seq<Effect>)
      requires run.Some?
      modifies this`run
      ensures (View(), fx) == Arm(old(View()), old(run).value, now)
    {
      var delay := ChainDelay(run.value.phase);
      run := Some(run.value.(nonce := run.value.nonce + 1, expectedFireAt := now + delay));
      fx := [SetTimer(delay, ChainTimer(run.value))];
    }

    method RecordTimer(task: TaskId, attempt: nat, nonce: nat, now: nat) returns (fx: seq<Effect>)
      modifies this`run
      ensures (View(), fx) == OnRecord(old(View()), task, attempt, nonce, now)
    {
      if run.None? || run.value.task != task || run.value.attempt != attempt || run.value.nonce != nonce
         || run.value.phase != Executing { return []; }
      run := Some(run.value.(recordsDone := run.value.recordsDone + 1));
      if run.value.recordsDone >= run.value.recordsTotal {
        run := Some(run.value.(phase := if task.Red? then Output else Disk));
      }
      var armed := ArmChain(now);
      fx := [Send(JT, RecordDone(task, attempt))] + armed;
    }

    method DiskTimer(job: Job, m: MapTask, attempt: nat, nonce: nat) returns (fx: seq<Effect>)
      modifies this
      ensures (View(), fx) == OnDisk(job, old(View()), m, attempt, nonce)
    {
      if run.None? || run.value.task != Map(m) || run.value.attempt != attempt || run.value.nonce != nonce
         || run.value.phase != Disk { return []; }
      var zero, one := MapPartitions(job, job.split(m));
      disk, run := disk[m := (zero, one)], None;
      fx := [Send(JT, MapDone(m, attempt))];
    }

    method FetchMissing(r: ReduceTask) returns (fx: seq<Effect>)
      requires run.Some?
      ensures fx == Fetches(run.value, r, 3)
    {
      fx := [];
      for i := 0 to 3
        invariant fx == Fetches(run.value, r, i)
      {
        var m := MAP_TASKS[i];
        if m !in run.value.files && m in run.value.sources {
          fx := fx + [Send(W(run.value.sources[m]), Fetch(m, r, run.value.attempt))];
        }
      }
    }

    method FetchRetryTimer(r: ReduceTask, attempt: nat, nonce: nat, now: nat) returns (fx: seq<Effect>)
      modifies this`run
      ensures (View(), fx) == OnFetchRetry(old(View()), r, attempt, nonce, now)
    {
      if run.None? || run.value.task != Red(r) || run.value.attempt != attempt || run.value.nonce != nonce
         || run.value.phase != Fetching { return []; }
      var asked := FetchMissing(r);
      var armed := ArmChain(now);
      fx := asked + armed;
    }

    /** Adds up the files that were fetched. */
    method ReduceFiles() returns (counts: PartFile)
      requires run.Some?
      ensures counts == Reduced(run.value)
    {
      counts := [];
      for i := 0 to 3
        invariant i == 0 ==> counts == []
        invariant i == 1 ==> counts == Merge([], FileFor(run.value, M0))
        invariant i == 2 ==> counts == Merge(Merge([], FileFor(run.value, M0)), FileFor(run.value, M1))
        invariant i == 3 ==> counts == Reduced(run.value)
      {
        var file := if MAP_TASKS[i] in run.value.files then run.value.files[MAP_TASKS[i]] else [];
        ghost var before := counts;
        for j := 0 to |file|
          invariant counts == Merge(before, file[..j])
        {
          assert file[..j + 1][..j] == file[..j];
          counts := AddTo(counts, file[j].url, file[j].n);
        }
        assert file[..|file|] == file;
      }
    }

    method OutputTimer(r: ReduceTask, attempt: nat, nonce: nat) returns (fx: seq<Effect>)
      modifies this`run
      ensures (View(), fx) == OnOutput(old(View()), r, attempt, nonce)
    {
      if run.None? || run.value.task != Red(r) || run.value.attempt != attempt || run.value.nonce != nonce
         || run.value.phase != Output { return []; }
      var rows := ReduceFiles();
      run := None;
      fx := [Send(JT, ReduceDone(r, attempt, rows))];
    }

    method TakePing(now: nat) returns (fx: seq<Effect>)
      modifies this`run
      ensures (View(), fx) == OnPing(old(View()), now)
    {
      fx := [Send(JT, Pong(incarnation))];
      if run.Some? && now > run.value.expectedFireAt {
        var armed := ArmChain(now);
        fx := fx + armed;
      }
    }

    method TakeReset(n: nat) returns (fx: seq<Effect>)
      modifies this
      ensures View() == State(id, n, None, map[]) && fx == [Send(JT, Pong(n))]
    {
      incarnation, run, disk := n, None, map[];
      fx := [Send(JT, Pong(n))];
    }

    method TakeAssignMap(m: MapTask, attempt: nat, now: nat) returns (fx: seq<Effect>)
      modifies this`run
      ensures (View(), fx) == OnAssignMap(old(View()), m, attempt, now)
    {
      if m in disk { return [Send(JT, MapDone(m, attempt))]; }
      if run.Some? && run.value.task == Map(m) && run.value.attempt == attempt { return []; }
      run := Some(Run(Map(m), attempt, Executing, 0, MAP_RECORDS, map[], map[], 0, 0));
      fx := ArmChain(now);
    }

    method TakeAssignReduce(job: Job, r: ReduceTask, attempt: nat, sources: map<MapTask, Worker>, now: nat)
      returns (fx: seq<Effect>)
      modifies this`run
      ensures (View(), fx) == OnAssignReduce(job, old(View()), r, attempt, sources, now)
    {
      if run.Some? && run.value.task == Red(r) && run.value.attempt == attempt { return []; }
      run := Some(Run(Red(r), attempt, Fetching, 0, job.execs(r), sources, map[], 0, 0));
      var asked := FetchMissing(r);
      var armed := ArmChain(now);
      fx := asked + armed;
    }

    method TakeFetchResp(m: MapTask, r: ReduceTask, attempt: nat, file: PartFile, now: nat) returns (fx: seq<Effect>)
      modifies this`run
      ensures (View(), fx) == OnFetchResp(old(View()), m, r, attempt, file, now)
    {
      if run.None? || run.value.task != Red(r) || run.value.attempt != attempt || run.value.phase != Fetching
         || m in run.value.files { return []; }
      run := Some(run.value.(files := run.value.files[m := file]));
      fx := [Send(JT, Fetched(m, r, attempt))];
      if M0 in run.value.files && M1 in run.value.files && M2 in run.value.files {
        run := Some(run.value.(phase := Executing));
        var armed := ArmChain(now);
        fx := fx + armed;
      }
    }

    method TakeRelocated(m: MapTask, w: Worker)
      modifies this`run
      ensures View() == OnRelocated(old(View()), m, w)
    {
      if run.Some? && run.value.task.Red? && run.value.phase == Fetching {
        run := Some(run.value.(sources := run.value.sources[m := w]));
      }
    }

    /** A file on the disk is served; a missing one is met with silence. */
    method ServeFetch(from: NodeId, m: MapTask, r: ReduceTask, attempt: nat) returns (fx: seq<Effect>)
      ensures fx == OnFetch(View(), from, m, r, attempt)
    {
      fx := [];
      if m in disk {
        var part := if r == R0 then disk[m].0 else disk[m].1;
        fx := [Send(from, FetchResp(m, r, attempt, part))];
      }
    }

    method TakeMessage(job: Job, from: NodeId, msg: Msg, now: nat) returns (fx: seq<Effect>)
      modifies this
      ensures (View(), fx) == OnMessage(job, old(View()), from, msg, now)
    {
      fx := [];
      match msg {
        case Ping => { fx := TakePing(now); }
        case Reset(n) => { fx := TakeReset(n); }
        case AssignMap(m, attempt) => { fx := TakeAssignMap(m, attempt, now); }
        case AssignReduce(r, attempt, sources) => { fx := TakeAssignReduce(job, r, attempt, sources, now); }
        case Fetch(m, r, attempt) => { fx := ServeFetch(from, m, r, attempt); }
        case FetchResp(m, r, attempt, file) => { fx := TakeFetchResp(m, r, attempt, file, now); }
        case MapRelocated(m, w) => { TakeRelocated(m, w); }
        case _ => {}
      }
    }

    method TakeTimer(job: Job, t: Timer, now: nat) returns (fx: seq<Effect>)
      modifies this
      ensures (View(), fx) == OnTimer(job, old(View()), t, now)
    {
      fx := [];
      match t {
        case MrRecord(task, attempt, nonce) => { fx := RecordTimer(task, attempt, nonce, now); }
        case MrDisk(m, attempt, nonce) => { fx := DiskTimer(job, m, attempt, nonce); }
        case MrFetchRetry(r, attempt, nonce) => { fx := FetchRetryTimer(r, attempt, nonce, now); }
        case MrOutput(r, attempt, nonce) => { fx := OutputTimer(r, attempt, nonce); }
        case _ => {}
      }
    }
  }
}
