/** The scheduler of the MapReduce side: placement, the liveness verdict, and what the death of a worker undoes. */
module BatchSched {
  import opened BatchShared
  import opened BatchWorker

  datatype Status = Waiting | Runnable | Running | Done

  datatype TaskRow = TaskRow(status: Status, worker: Option<Worker>, attempt: nat, execTicks: nat, acked: bool)

  datatype MrPhase = IdlePhase | MapPhase | ReducePhase | DonePhase

  datatype Tasks = Tasks(m0: TaskRow, m1: TaskRow, m2: TaskRow, r0: TaskRow, r1: TaskRow)

  /** A number for each worker. */
  datatype PerWorker = PerWorker(w1: nat, w2: nat, w3: nat)

  datatype Sched = Sched(
    started: bool, jobQueued: bool, lastPong: PerWorker, live: set<Worker>, incarnation: PerWorker,
    phase: MrPhase, tasks: Tasks, diskAt: map<MapTask, Worker>, fetched0: seq<MapTask>, fetched1: seq<MapTask>,
    materialized: nat, reexecuted: nat, lostAfterDone: nat, wasted: nat, completionTick: Option<nat>, output: seq<Row>)

  const FRESH_ROW: TaskRow := TaskRow(Waiting, None, 0, 0, false)

  function InitSched(): Sched {
    Sched(false, false, PerWorker(0, 0, 0), {W1, W2, W3}, PerWorker(0, 0, 0), IdlePhase,
          Tasks(FRESH_ROW, FRESH_ROW, FRESH_ROW, FRESH_ROW, FRESH_ROW), map[], [], [], 0, 0, 0, 0, None, [])
  }

  // ---------- rows and counters ----------

  function RowIn(ts: Tasks, t: TaskId): TaskRow {
    match t
    case Map(M0) => ts.m0
    case Map(M1) => ts.m1
    case Map(M2) => ts.m2
    case Red(R0) => ts.r0
    case Red(R1) => ts.r1
  }

  function WithRowIn(ts: Tasks, t: TaskId, row: TaskRow): (r: Tasks)
    ensures RowIn(r, t) == row && forall u :: u != t ==> RowIn(r, u) == RowIn(ts, u)
  {
    match t
    case Map(M0) => ts.(m0 := row)
    case Map(M1) => ts.(m1 := row)
    case Map(M2) => ts.(m2 := row)
    case Red(R0) => ts.(r0 := row)
    case Red(R1) => ts.(r1 := row)
  }

  function RowOf(s: Sched, t: TaskId): TaskRow { RowIn(s.tasks, t) }

  function WithRow(s: Sched, t: TaskId, row: TaskRow): Sched { s.(tasks := WithRowIn(s.tasks, t, row)) }

  function Of(p: PerWorker, w: Worker): nat { match w case W1 => p.w1 case W2 => p.w2 case W3 => p.w3 }

  function With(p: PerWorker, w: Worker, n: nat): PerWorker {
    match w case W1 => p.(w1 := n) case W2 => p.(w2 := n) case W3 => p.(w3 := n)
  }

  function FetchedBy(s: Sched, r: ReduceTask): seq<MapTask> { if r == R0 then s.fetched0 else s.fetched1 }

  function WithFetched(s: Sched, r: ReduceTask, f: seq<MapTask>): Sched {
    if r == R0 then s.(fetched0 := f) else s.(fetched1 := f)
  }

  // ---------- placement ----------

  predicate IsRunnable(s: Sched, t: TaskId) { RowOf(s, t).status == Runnable }

  predicate RunsOn(s: Sched, t: TaskId, w: Worker) { RowOf(s, t).status == Running && RowOf(s, t).worker == Some(w) }

  /** The first task of a list in the given position or later that meets a condition. */
  function FirstRunnable(s: Sched, i: nat): Option<TaskId>
    requires i <= 5
    decreases 5 - i
  {
    if i == 5 then None else if IsRunnable(s, TASK_ORDER[i]) then Some(TASK_ORDER[i]) else FirstRunnable(s, i + 1)
  }

  function FirstRunning(s: Sched, w: Worker, i: nat): Option<TaskId>
    requires i <= 5
    decreases 5 - i
  {
    if i == 5 then None else if RunsOn(s, TASK_ORDER[i], w) then Some(TASK_ORDER[i]) else FirstRunning(s, w, i + 1)
  }

  predicate Busy(s: Sched, w: Worker) { FirstRunning(s, w, 0).Some? }

  function FirstIdle(s: Sched, i: nat): Option<Worker>
    requires i <= 3
    decreases 3 - i
  {
    if i == 3 then None
    else if WORKERS[i] in s.live && !Busy(s, WORKERS[i]) then Some(WORKERS[i]) else FirstIdle(s, i + 1)
  }

  function AssignMsg(s: Sched, t: TaskId): Msg {
    match t
    case Map(m) => AssignMap(m, RowOf(s, t).attempt)
    case Red(r) => AssignReduce(r, RowOf(s, t).attempt, s.diskAt)
  }

  function SendAssign(s: Sched, t: TaskId): seq<Effect> {
    if RowOf(s, t).worker.Some? then [Send(W(RowOf(s, t).worker.value), AssignMsg(s, t))] else []
  }

  function Place(s: Sched, t: TaskId, w: Worker): Sched {
    WithRow(s, t, RowOf(s, t).(status := Running, worker := Some(w), execTicks := 0, acked := false))
  }

  function Runnables(s: Sched, i: nat): nat
    requires i <= 5
    decreases 5 - i
  {
    if i == 5 then 0 else Runnables(s, i + 1) + if IsRunnable(s, TASK_ORDER[i]) then 1 else 0
  }

  lemma FirstRunnableIs(s: Sched, i: nat)
    requires i <= 5
    ensures FirstRunnable(s, i).Some? ==> IsRunnable(s, FirstRunnable(s, i).value)
    decreases 5 - i
  {
    if i < 5 { FirstRunnableIs(s, i + 1); }
  }

  lemma PlaceFewer(s: Sched, t: TaskId, w: Worker)
    requires IsRunnable(s, t)
    ensures Runnables(Place(s, t, w), 0) < Runnables(s, 0)
  {
    var s' := Place(s, t, w);
    assert Runnables(s, 5) == 0 && Runnables(s', 5) == 0;
    assert forall u :: u != t ==> RowOf(s', u) == RowOf(s, u);
    assert Runnables(s, 3) == Runnables(s, 4) + if IsRunnable(s, Red(R0)) then 1 else 0;
    assert Runnables(s, 1) == Runnables(s, 2) + if IsRunnable(s, Map(M1)) then 1 else 0;
    assert Runnables(s', 3) == Runnables(s', 4) + if IsRunnable(s', Red(R0)) then 1 else 0;
    assert Runnables(s', 1) == Runnables(s', 2) + if IsRunnable(s', Map(M1)) then 1 else 0;
  }

  /** The lowest idle live worker takes the lowest runnable task, for as long as there are both. */
  function ScheduleMr(s: Sched): (Sched, seq<Effect>)
    decreases Runnables(s, 0)
  {
    var t := FirstRunnable(s, 0);
    if t.None? || FirstIdle(s, 0).None? then (s, [])
    else
      FirstRunnableIs(s, 0);
      PlaceFewer(s, t.value, FirstIdle(s, 0).value);
      var next := Place(s, t.value, FirstIdle(s, 0).value);
      var rest := ScheduleMr(next);
      (rest.0, SendAssign(next, t.value) + rest.1)
  }

  // ---------- the death of a worker ----------

  function Requeued(row: TaskRow): TaskRow {
    row.(status := Runnable, worker := None, attempt := row.attempt + 1, execTicks := 0)
  }

  /** A running task loses its partial execution. */
  function Interrupted(s: Sched, t: TaskId): Sched {
    var row := RowOf(s, t);
    var lost := WithRow(s.(wasted := s.wasted + row.execTicks, reexecuted := s.reexecuted + 1), t, Requeued(row));
    if t.Red? then WithFetched(lost, t.r, []) else lost
  }

  function LoseRunning(s: Sched, w: Worker): Sched {
    var t := FirstRunning(s, w, 0);
    if t.None? then s else Interrupted(s, t.value)
  }

  predicate StillNeeded(s: Sched, m: MapTask) {
    (s.tasks.r0.status != Done && m !in s.fetched0) || (s.tasks.r1.status != Done && m !in s.fetched1)
  }

  /** A done map whose output is gone runs again. */
  function Rerun(s: Sched, m: MapTask): Sched {
    WithRow(s.(lostAfterDone := s.lostAfterDone + 1, reexecuted := s.reexecuted + 1, wasted := s.wasted + MAP_EXEC_TICKS),
            Map(m), Requeued(RowOf(s, Map(m))))
  }

  /** The output of m died with the disk of w. */
  function LoseDisk(s: Sched, w: Worker, m: MapTask): Sched {
    if m !in s.diskAt || s.diskAt[m] != w || RowOf(s, Map(m)).status != Done then s
    else
      var gone := s.(diskAt := s.diskAt - {m});
      if StillNeeded(s, m) then Rerun(gone, m) else gone
  }

  function LoseDisks(s: Sched, w: Worker, n: nat): Sched
    requires n <= 3
  {
    if n == 0 then s else LoseDisk(LoseDisks(s, w, n - 1), w, MAP_TASKS[n - 1])
  }

  function MarkDead(s: Sched, w: Worker): Sched {
    s.(live := s.live - {w}, incarnation := With(s.incarnation, w, Of(s.incarnation, w) + 1))
  }

  function DeclareDead(s: Sched, w: Worker): (Sched, seq<Effect>) {
    ScheduleMr(LoseDisks(LoseRunning(MarkDead(s, w), w), w, 3))
  }

  // ---------- the ping round ----------

  function PingWorker(s: Sched, w: Worker, now: nat): (Sched, seq<Effect>) {
    var r := if w in s.live && now > Of(s.lastPong, w) + DEAD_AFTER then DeclareDead(s, w) else (s, []);
    (r.0, r.1 + [Send(W(w), Ping)])
  }

  function PingWorkers(s: Sched, now: nat, n: nat): (Sched, seq<Effect>)
    requires n <= 3
  {
    if n == 0 then (s, [])
    else
      var r := PingWorkers(s, now, n - 1);
      var q := PingWorker(r.0, WORKERS[n - 1], now);
      (q.0, r.1 + q.1)
  }

  predicate RunningLive(s: Sched, t: TaskId) {
    RowOf(s, t).status == Running && RowOf(s, t).worker.Some? && RowOf(s, t).worker.value in s.live
  }

  /** Assignments that no worker has acknowledged go out again. */
  function Redrive(s: Sched, n: nat): seq<Effect>
    requires n <= 5
  {
    if n == 0 then []
    else
      var t := TASK_ORDER[n - 1];
      Redrive(s, n - 1) + if RunningLive(s, t) && !RowOf(s, t).acked then SendAssign(s, t) else []
  }

  function Relocate(s: Sched, r: ReduceTask, n: nat): seq<Effect>
    requires n <= 3
  {
    if n == 0 then []
    else
      var m := MAP_TASKS[n - 1];
      Relocate(s, r, n - 1) +
        if RowOf(s, Red(r)).worker.Some? && m in s.diskAt
        then [Send(W(RowOf(s, Red(r)).worker.value), MapRelocated(m, s.diskAt[m]))] else []
  }

  function Relocations(s: Sched): seq<Effect> {
    (if RunningLive(s, Red(R0)) then Relocate(s, R0, 3) else []) + (if RunningLive(s, Red(R1)) then Relocate(s, R1, 3) else [])
  }

  /** A done map that the reduce still needs but whose output is nowhere runs again. */
  function Strand(s: Sched, r: ReduceTask, m: MapTask): Sched {
    if m in FetchedBy(s, r) || m in s.diskAt || RowOf(s, Map(m)).status != Done then s
    else Rerun(s, m)
  }

  function Stranded(s: Sched, r: ReduceTask, n: nat): Sched
    requires n <= 3
  {
    if n == 0 then s else Strand(Stranded(s, r, n - 1), r, MAP_TASKS[n - 1])
  }

  function RequeueFor(s: Sched, r: ReduceTask): Sched {
    if RowOf(s, Red(r)).status == Running then Stranded(s, r, 3) else s
  }

  /** The rest of the round, once the silent workers have been declared dead. */
  function AfterPings(a: (Sched, seq<Effect>)): (Sched, seq<Effect>) {
    var b := ScheduleMr(RequeueFor(RequeueFor(a.0, R0), R1));
    (b.0, a.1 + Redrive(a.0, 5) + Relocations(a.0) + b.1 + [SetTimer(PING_EVERY, PingTimer)])
  }

  function OnPingTimer(s: Sched, now: nat): (Sched, seq<Effect>) { AfterPings(PingWorkers(s, now, 3)) }

  // ---------- the other events ----------

  function Readied(row: TaskRow): TaskRow { row.(status := Runnable) }

  function OnStartJob(s: Sched): (Sched, seq<Effect>) {
    var t := s.tasks.(m0 := Readied(s.tasks.m0), m1 := Readied(s.tasks.m1), m2 := Readied(s.tasks.m2));
    ScheduleMr(s.(started := true, phase := MapPhase, tasks := t))
  }

  function OnRunJob(s: Sched): (Sched, seq<Effect>) {
    if s.jobQueued then (s, []) else (s.(jobQueued := true), [SetTimer(1, StartJob)])
  }

  function OnPong(s: Sched, w: Worker, incarnation: nat, now: nat): (Sched, seq<Effect>) {
    var t := s.(lastPong := With(s.lastPong, w, now));
    if w in s.live then (t, [])
    else if incarnation == Of(s.incarnation, w) then ScheduleMr(t.(live := t.live + {w}))
    else (t, [Send(W(w), Reset(Of(s.incarnation, w)))])
  }

  function OnRecordDone(s: Sched, t: TaskId, attempt: nat): Sched {
    var row := RowOf(s, t);
    if attempt == row.attempt && row.status == Running
    then WithRow(s, t, row.(execTicks := row.execTicks + RECORD_COST, acked := true)) else s
  }

  predicate MapsDone(s: Sched) { s.tasks.m0.status == Done && s.tasks.m1.status == Done && s.tasks.m2.status == Done }

  predicate ReducesDone(s: Sched) { s.tasks.r0.status == Done && s.tasks.r1.status == Done }

  function Unblocked(row: TaskRow): TaskRow { if row.status == Waiting then Readied(row) else row }

  function TellReducer(s: Sched, r: ReduceTask, m: MapTask, w: Worker): seq<Effect> {
    var row := RowOf(s, Red(r));
    if row.status == Running && row.worker.Some? then [Send(W(row.worker.value), MapRelocated(m, w))] else []
  }

  /** The row and the disk of a map that has reported. */
  function Mapped(s: Sched, w: Worker, m: MapTask): Sched {
    WithRow(s, Map(m), RowOf(s, Map(m)).(acked := true, status := Done))
      .(diskAt := s.diskAt[m := w], materialized := s.materialized + MAP_RECORDS)
  }

  /** The barrier between the phases. */
  function Barrier(s: Sched): Sched {
    s.(phase := ReducePhase, tasks := s.tasks.(r0 := Unblocked(s.tasks.r0), r1 := Unblocked(s.tasks.r1)))
  }

  function Told(t: Sched, w: Worker, m: MapTask): seq<Effect> {
    if t.phase == ReducePhase then TellReducer(t, R0, m, w) + TellReducer(t, R1, m, w) else []
  }

  function MappedOn(t: Sched, w: Worker, m: MapTask): (Sched, seq<Effect>) {
    if t.phase == MapPhase && MapsDone(t) then ScheduleMr(Barrier(t))
    else (ScheduleMr(t).0, Told(t, w, m) + ScheduleMr(t).1)
  }

  function OnMapDone(s: Sched, w: Worker, m: MapTask, attempt: nat): (Sched, seq<Effect>) {
    if attempt != RowOf(s, Map(m)).attempt || RowOf(s, Map(m)).status != Running then (s, [])
    else MappedOn(Mapped(s, w, m), w, m)
  }

  function OnFetched(s: Sched, m: MapTask, r: ReduceTask, attempt: nat): Sched {
    var row := RowOf(s, Red(r));
    if attempt != row.attempt then s
    else
      var t := WithRow(s, Red(r), row.(acked := true));
      if m in FetchedBy(s, r) then t else WithFetched(t, r, FetchedBy(s, r) + [m])
  }

  function InsertRow(job: Job, rows: seq<Row>, row: Row): seq<Row> {
    if rows == [] || job.before(row, rows[0]) then [row] + rows else [rows[0]] + InsertRow(job, rows[1..], row)
  }

  /** The rows in display order. */
  function SortRows(job: Job, rows: seq<Row>): seq<Row> {
    if rows == [] then [] else InsertRow(job, SortRows(job, rows[..|rows| - 1]), rows[|rows| - 1])
  }

  function OnReduceDone(job: Job, s: Sched, r: ReduceTask, attempt: nat, rows: seq<Row>, now: nat): (Sched, seq<Effect>) {
    var row := RowOf(s, Red(r));
    if attempt != row.attempt || row.status != Running then (s, [])
    else
      var t := WithRow(s, Red(r), row.(acked := true, status := Done)).(output := s.output + rows);
      if ReducesDone(t) then (t.(phase := DonePhase, completionTick := Some(now), output := SortRows(job, t.output)), [])
      else ScheduleMr(t)
  }

  function OnMsg(job: Job, s: Sched, w: Worker, msg: Msg, now: nat): (Sched, seq<Effect>) {
    match msg
    case Pong(incarnation) => OnPong(s, w, incarnation, now)
    case RecordDone(t, attempt) => (OnRecordDone(s, t, attempt), [])
    case MapDone(m, attempt) => OnMapDone(s, w, m, attempt)
    case Fetched(m, r, attempt) => (OnFetched(s, m, r, attempt), [])
    case ReduceDone(r, attempt, rows) => OnReduceDone(job, s, r, attempt, rows, now)
    case _ => (s, [])
  }

  function OnSchedTimer(s: Sched, t: Timer, now: nat): (Sched, seq<Effect>) {
    match t
    case PingTimer => OnPingTimer(s, now)
    case StartJob => OnStartJob(s)
    case _ => (s, [])
  }
}
