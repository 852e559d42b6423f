/** MapReduce over whole runs: workers may be killed, reset and revived, messages lost, repeated and reordered,
    and timers may fire at any time. The scheduler never dies. */
module BatchRuns {
  import opened BatchShared
  import opened BatchWorker
  import opened BatchSched

  datatype Packet = Packet(from: NodeId, to: NodeId, msg: Msg)

  datatype Cluster = Cluster(jt: Sched, ws: map<Worker, State>, net: set<Packet>)

  datatype Action =
    | RunJob
    | DeliverJt(p: Packet, now: nat)
    | DeliverW(p: Packet, now: nat)
    | FireJt(timer: Timer, now: nat)
    | FireW(w: Worker, timer: Timer, now: nat)

  function Packets(from: NodeId, fx: seq<Effect>): set<Packet> {
    if fx == [] then {} else Packets(from, fx[..|fx| - 1]) + PacketOf(from, fx[|fx| - 1])
  }

  function PacketOf(from: NodeId, f: Effect): set<Packet> {
    if f.Send? then {Packet(from, f.to, f.msg)} else {}
  }

  predicate Enabled(c: Cluster, a: Action) {
    match a
    case RunJob => true
    case DeliverJt(p, _) => p in c.net && p.to == JT && p.from.W?
    case DeliverW(p, _) => p in c.net && p.to.W? && p.to.w in c.ws
    case FireJt(_, _) => true
    case FireW(w, _, _) => w in c.ws
  }

  function JtStep(c: Cluster, r: (Sched, seq<Effect>)): Cluster {
    c.(jt := r.0, net := c.net + Packets(JT, r.1))
  }

  function WorkerStep(c: Cluster, w: Worker, r: (State, seq<Effect>)): Cluster {
    c.(ws := c.ws[w := r.0], net := c.net + Packets(W(w), r.1))
  }

  function Step(job: Job, c: Cluster, a: Action): Cluster
    requires Enabled(c, a)
  {
    match a
    case RunJob => JtStep(c, OnRunJob(c.jt))
    case DeliverJt(p, now) => JtStep(c, OnMsg(job, c.jt, p.from.w, p.msg, now))
    case FireJt(t, now) => JtStep(c, OnSchedTimer(c.jt, t, now))
    case DeliverW(p, now) => WorkerStep(c, p.to.w, OnMessage(job, c.ws[p.to.w], p.from, p.msg, now))
    case FireW(w, t, now) => WorkerStep(c, w, OnTimer(job, c.ws[w], t, now))
  }

  ghost predicate Runs(job: Job, c: Cluster, acts: seq<Action>)
    decreases |acts|, 0
  {
    acts == [] || (Runs(job, c, acts[..|acts| - 1]) && Enabled(Exec(job, c, acts[..|acts| - 1]), acts[|acts| - 1]))
  }

  ghost function Exec(job: Job, c: Cluster, acts: seq<Action>): Cluster
    requires Runs(job, c, acts)
    decreases |acts|, 1
  {
    if acts == [] then c else Step(job, Exec(job, c, acts[..|acts| - 1]), acts[|acts| - 1])
  }

  function Start(): Cluster {
    Cluster(InitSched(), map[W1 := Init(W1), W2 := Init(W2), W3 := Init(W3)], {})
  }

  // ---------- placement ----------

  ghost predicate RunsWell(s: Sched, t: TaskId) {
    RowOf(s, t).status == Running ==> RowOf(s, t).worker.Some? && RowOf(s, t).worker.value in s.live
  }

  ghost predicate Apart(s: Sched, t: TaskId, u: TaskId) {
    t != u && RowOf(s, t).status == Running && RowOf(s, u).status == Running ==> RowOf(s, t).worker != RowOf(s, u).worker
  }

  /** Running tasks sit on pairwise distinct live workers. */
  ghost predicate Placed(s: Sched) {
    (forall t :: RunsWell(s, t)) && (forall t, u :: Apart(s, t, u))
  }

  lemma {:induction false} NoneRunning(s: Sched, w: Worker, i: nat)
    requires i <= 5
    ensures FirstRunning(s, w, i).None? ==> forall j :: i <= j < 5 ==> !RunsOn(s, TASK_ORDER[j], w)
    ensures FirstRunning(s, w, i).Some? ==> RunsOn(s, FirstRunning(s, w, i).value, w)
    decreases 5 - i
  {
    if i < 5 { NoneRunning(s, w, i + 1); }
  }

  lemma InOrder(t: TaskId) returns (j: nat)
    ensures j < 5 && TASK_ORDER[j] == t
  {
    match t {
      case Map(m) => { j := match m case M0 => 0 case M1 => 1 case M2 => 2; }
      case Red(r) => { j := match r case R0 => 3 case R1 => 4; }
    }
  }

  lemma NotBusy(s: Sched, w: Worker, t: TaskId)
    requires !Busy(s, w)
    ensures !RunsOn(s, t, w)
  {
    NoneRunning(s, w, 0);
    var j := InOrder(t);
  }

  lemma {:induction false} IdleIs(s: Sched, i: nat)
    requires i <= 3
    ensures FirstIdle(s, i).Some? ==> FirstIdle(s, i).value in s.live && !Busy(s, FirstIdle(s, i).value)
    decreases 3 - i
  {
    if i < 3 { IdleIs(s, i + 1); }
  }

  lemma PlacePlaced(s: Sched, t: TaskId, w: Worker)
    requires Placed(s) && w in s.live && !Busy(s, w) && IsRunnable(s, t)
    ensures Placed(Place(s, t, w))
  {
    var s' := Place(s, t, w);
    forall u ensures RunsWell(s', u) { assert RunsWell(s, u); }
    forall u, v ensures Apart(s', u, v) {
      assert Apart(s, u, v) && RunsWell(s, u) && RunsWell(s, v);
      NotBusy(s, w, u);
      NotBusy(s, w, v);
    }
  }

  // ---------- what the scheduler's steps keep ----------

  /** Output and finished reduces stay as they were. */
  ghost predicate Keeps(s: Sched, s': Sched) {
    && s'.output == s.output && s'.phase == s.phase
    && (s'.tasks.r0.status == Done <==> s.tasks.r0.status == Done)
    && (s'.tasks.r1.status == Done <==> s.tasks.r1.status == Done)
  }

  predicate HarmlessOne(f: Effect) { f.Send? ==> !f.msg.FetchResp? && !f.msg.ReduceDone? }

  ghost predicate Harmless(fx: seq<Effect>) { forall i :: 0 <= i < |fx| ==> HarmlessOne(fx[i]) }

  lemma PlaceKeeps(s: Sched, t: TaskId, w: Worker)
    requires IsRunnable(s, t)
    ensures Keeps(s, Place(s, t, w))
  {
  }

  lemma {:induction false} ScheduleOk(s: Sched)
    requires Placed(s)
    ensures Placed(ScheduleMr(s).0) && Keeps(s, ScheduleMr(s).0) && Harmless(ScheduleMr(s).1)
    decreases Runnables(s, 0)
  {
    var t := FirstRunnable(s, 0);
    if t.Some? && FirstIdle(s, 0).Some? {
      var w := FirstIdle(s, 0).value;
      FirstRunnableIs(s, 0);
      IdleIs(s, 0);
      PlaceFewer(s, t.value, w);
      PlacePlaced(s, t.value, w);
      PlaceKeeps(s, t.value, w);
      ScheduleOk(Place(s, t.value, w));
    }
  }

  /** A row that does not run can be changed to any other that does not. */
  lemma RowPlaced(s: Sched, s': Sched, t: TaskId)
    requires Placed(s) && s'.live == s.live && RowOf(s', t).status != Running
    requires forall u :: u != t ==> RowOf(s', u) == RowOf(s, u)
    ensures Placed(s')
  {
    forall u ensures RunsWell(s', u) { assert RunsWell(s, u); }
    forall u, v ensures Apart(s', u, v) { assert Apart(s, u, v); }
  }

  lemma SameRows(s: Sched, s': Sched)
    requires Placed(s) && s'.live >= s.live && s'.tasks == s.tasks
    ensures Placed(s')
  {
    forall u ensures RunsWell(s', u) { assert RunsWell(s, u); }
    forall u, v ensures Apart(s', u, v) { assert Apart(s, u, v); }
  }

  lemma LostOne(d: Sched, w: Worker, t: TaskId)
    requires FirstRunning(d, w, 0) == Some(t)
    ensures var s' := LoseRunning(d, w);
      && Keeps(d, s') && s'.live == d.live && RowOf(s', t).status == Runnable
      && forall u :: u != t ==> RowOf(s', u) == RowOf(d, u)
  {
    NoneRunning(d, w, 0);
  }

  /** The single search for a running task misses none: after it nothing runs on the dead worker. */
  lemma LosePlaced(s: Sched, w: Worker)
    requires Placed(s)
    ensures Placed(LoseRunning(MarkDead(s, w), w)) && Keeps(s, LoseRunning(MarkDead(s, w), w))
    ensures forall t :: !RunsOn(LoseRunning(MarkDead(s, w), w), t, w)
  {
    var d := MarkDead(s, w);
    var s', found := LoseRunning(d, w), FirstRunning(d, w, 0);
    NoneRunning(d, w, 0);
    if found.Some? { LostOne(d, w, found.value); }
    forall u ensures RunsWell(s', u) && !RunsOn(s', u, w) {
      assert RunsWell(s, u) && RowOf(d, u) == RowOf(s, u);
      if found.None? { NotBusy(d, w, u); } else { assert Apart(s, found.value, u); }
    }
    forall u, v ensures Apart(s', u, v) { assert Apart(s, u, v); }
  }

  lemma DiskPlaced(s: Sched, w: Worker, m: MapTask)
    requires Placed(s)
    ensures Placed(LoseDisk(s, w, m)) && Keeps(s, LoseDisk(s, w, m))
  {
    var s' := LoseDisk(s, w, m);
    if RowOf(s, Map(m)).status == Done { RowPlaced(s, s', Map(m)); }
  }

  lemma {:induction false} DisksPlaced(s: Sched, w: Worker, n: nat)
    requires Placed(s) && n <= 3
    ensures Placed(LoseDisks(s, w, n)) && Keeps(s, LoseDisks(s, w, n))
  {
    if n > 0 {
      DisksPlaced(s, w, n - 1);
      DiskPlaced(LoseDisks(s, w, n - 1), w, MAP_TASKS[n - 1]);
    }
  }

  lemma DeadOk(s: Sched, w: Worker)
    requires Placed(s)
    ensures Placed(DeclareDead(s, w).0) && Keeps(s, DeclareDead(s, w).0) && Harmless(DeclareDead(s, w).1)
  {
    var lost := LoseRunning(MarkDead(s, w), w);
    LosePlaced(s, w);
    DisksPlaced(lost, w, 3);
    ScheduleOk(LoseDisks(lost, w, 3));
  }

  ghost predicate Survives(s: Sched, r: (Sched, seq<Effect>)) {
    Placed(r.0) && Keeps(s, r.0) && Harmless(r.1)
  }

  lemma SurvivesThen(s: Sched, a: (Sched, seq<Effect>), b: (Sched, seq<Effect>))
    requires Survives(s, a) && Survives(a.0, b)
    ensures Survives(s, (b.0, a.1 + b.1))
  {
  }

  lemma PingOk(s: Sched, w: Worker, now: nat)
    requires Placed(s)
    ensures Survives(s, PingWorker(s, w, now))
  {
    DeadOk(s, w);
  }

  lemma {:induction false} PingsOk(s: Sched, now: nat, n: nat)
    requires Placed(s) && n <= 3
    ensures Survives(s, PingWorkers(s, now, n))
  {
    if n > 0 {
      PingsOk(s, now, n - 1);
      var a := PingWorkers(s, now, n - 1);
      PingOk(a.0, WORKERS[n - 1], now);
      SurvivesThen(s, a, PingWorker(a.0, WORKERS[n - 1], now));
    }
  }

  lemma StrandOk(s: Sched, r: ReduceTask, m: MapTask)
    requires Placed(s)
    ensures Placed(Strand(s, r, m)) && Keeps(s, Strand(s, r, m))
  {
    if RowOf(s, Map(m)).status == Done { RowPlaced(s, Strand(s, r, m), Map(m)); }
  }

  lemma {:induction false} StrandedOk(s: Sched, r: ReduceTask, n: nat)
    requires Placed(s) && n <= 3
    ensures Placed(Stranded(s, r, n)) && Keeps(s, Stranded(s, r, n))
  {
    if n > 0 {
      StrandedOk(s, r, n - 1);
      StrandOk(Stranded(s, r, n - 1), r, MAP_TASKS[n - 1]);
    }
  }

  lemma {:induction false} RedriveOk(s: Sched, n: nat)
    requires n <= 5
    ensures Harmless(Redrive(s, n))
  {
    if n > 0 { RedriveOk(s, n - 1); }
  }

  lemma {:induction false} RelocateOk(s: Sched, r: ReduceTask, n: nat)
    requires n <= 3
    ensures Harmless(Relocate(s, r, n))
  {
    if n > 0 { RelocateOk(s, r, n - 1); }
  }

  lemma RequeueOk(s: Sched)
    requires Placed(s)
    ensures var r := ScheduleMr(RequeueFor(RequeueFor(s, R0), R1)); Placed(r.0) && Keeps(s, r.0) && Harmless(r.1)
  {
    StrandedOk(s, R0, 3);
    var b := RequeueFor(s, R0);
    StrandedOk(b, R1, 3);
    ScheduleOk(RequeueFor(b, R1));
  }

  lemma ResendsOk(s: Sched)
    ensures Harmless(Redrive(s, 5) + Relocations(s))
  {
    RedriveOk(s, 5);
    RelocateOk(s, R0, 3);
    RelocateOk(s, R1, 3);
  }

  lemma AfterPingsOk(a: (Sched, seq<Effect>))
    requires Placed(a.0) && Harmless(a.1)
    ensures var r := AfterPings(a); Placed(r.0) && Keeps(a.0, r.0) && Harmless(r.1)
  {
    RequeueOk(a.0);
    ResendsOk(a.0);
    var b := ScheduleMr(RequeueFor(RequeueFor(a.0, R0), R1));
    FxHarmless(a.1, Redrive(a.0, 5), Relocations(a.0), b.1);
  }

  lemma FxHarmless(a: seq<Effect>, b: seq<Effect>, c: seq<Effect>, d: seq<Effect>)
    requires Harmless(a) && Harmless(b + c) && Harmless(d)
    ensures Harmless(a + b + c + d + [SetTimer(PING_EVERY, PingTimer)])
  {
    assert a + b + c + d == a + (b + c) + d;
  }

  lemma PingTimerOk(s: Sched, now: nat)
    requires Placed(s)
    ensures var r := OnPingTimer(s, now); Placed(r.0) && Keeps(s, r.0) && Harmless(r.1)
  {
    PingsOk(s, now, 3);
    AfterPingsOk(PingWorkers(s, now, 3));
  }

  // ---------- the scheduler's invariant ----------

  function RowsOf(job: Job, s: Sched, r: ReduceTask): multiset<Row> {
    if RowOf(s, Red(r)).status == Done then multiset(Expected(job, r)) else multiset{}
  }

  ghost predicate SchedInv(job: Job, s: Sched) {
    && Placed(s)
    && multiset(s.output) == RowsOf(job, s, R0) + RowsOf(job, s, R1)
    && (s.phase == DonePhase ==> ReducesDone(s))
  }

  /** A reaction of the scheduler that leaves things in order. */
  ghost predicate Fine(job: Job, r: (Sched, seq<Effect>)) {
    SchedInv(job, r.0) && Harmless(r.1)
  }

  lemma ScheduleFine(job: Job, s: Sched)
    requires SchedInv(job, s)
    ensures Fine(job, ScheduleMr(s))
  {
    ScheduleOk(s);
    KeepsInv(job, s, ScheduleMr(s).0);
  }

  lemma ThenFine(job: Job, fx: seq<Effect>, r: (Sched, seq<Effect>))
    requires Fine(job, r) && Harmless(fx)
    ensures Fine(job, (r.0, fx + r.1))
  {
  }

  lemma KeepsInv(job: Job, s: Sched, s': Sched)
    requires SchedInv(job, s) && Keeps(s, s') && Placed(s')
    ensures SchedInv(job, s')
  {
  }

  lemma StartJobOk(job: Job, s: Sched)
    requires SchedInv(job, s)
    ensures Fine(job, OnStartJob(s))
  {
    var t := s.tasks.(m0 := Readied(s.tasks.m0), m1 := Readied(s.tasks.m1), m2 := Readied(s.tasks.m2));
    StartedOk(job, s, s.(started := true, phase := MapPhase, tasks := t));
    ScheduleFine(job, s.(started := true, phase := MapPhase, tasks := t));
  }

  /** Rows that stop running cannot break the placement. */
  lemma CalmRows(s: Sched, s': Sched)
    requires Placed(s) && s'.live == s.live
    requires forall u {:trigger RowOf(s', u)} :: RowOf(s', u) == RowOf(s, u) || RowOf(s', u).status != Running
    ensures Placed(s')
  {
    forall u ensures RunsWell(s', u) { assert RunsWell(s, u); }
    forall u, v ensures Apart(s', u, v) { assert Apart(s, u, v); }
  }

  lemma StartedRow(a: Tasks, u: TaskId)
    ensures var b := a.(m0 := Readied(a.m0), m1 := Readied(a.m1), m2 := Readied(a.m2));
      RowIn(b, u) == RowIn(a, u) || RowIn(b, u).status != Running
  {
  }

  lemma StartedOk(job: Job, s: Sched, s': Sched)
    requires SchedInv(job, s) && s'.output == s.output && s'.phase == MapPhase && s'.live == s.live
    requires s'.tasks == s.tasks.(m0 := Readied(s.tasks.m0), m1 := Readied(s.tasks.m1), m2 := Readied(s.tasks.m2))
    ensures SchedInv(job, s')
  {
    forall u ensures RowOf(s', u) == RowOf(s, u) || RowOf(s', u).status != Running { StartedRow(s.tasks, u); }
    CalmRows(s, s');
  }

  lemma SameInv(job: Job, s: Sched, s': Sched)
    requires SchedInv(job, s) && s'.live >= s.live && s'.tasks == s.tasks && s'.output == s.output && s'.phase == s.phase
    ensures SchedInv(job, s')
  {
    SameRows(s, s');
  }

  lemma PongOk(job: Job, s: Sched, w: Worker, incarnation: nat, now: nat)
    requires SchedInv(job, s)
    ensures Fine(job, OnPong(s, w, incarnation, now))
  {
    var t := s.(lastPong := With(s.lastPong, w, now));
    SameInv(job, s, t);
    var back := t.(live := t.live + {w});
    SameInv(job, s, back);
    ScheduleFine(job, back);
  }

  lemma TouchOk(job: Job, s: Sched, t: TaskId, row: TaskRow)
    requires SchedInv(job, s) && row.status == RowOf(s, t).status && row.worker == RowOf(s, t).worker
    ensures SchedInv(job, WithRow(s, t, row))
  {
    var s' := WithRow(s, t, row);
    forall u ensures RunsWell(s', u) { assert RunsWell(s, u); }
    forall u, v ensures Apart(s', u, v) { assert Apart(s, u, v); }
  }

  lemma FetchedOk(job: Job, s: Sched, m: MapTask, r: ReduceTask, attempt: nat)
    requires SchedInv(job, s)
    ensures SchedInv(job, OnFetched(s, m, r, attempt))
  {
    var row := RowOf(s, Red(r));
    TouchOk(job, s, Red(r), row.(acked := true));
    var t := WithRow(s, Red(r), row.(acked := true));
    SameRows(t, WithFetched(t, r, FetchedBy(s, r) + [m]));
  }

  lemma MappedOk(job: Job, s: Sched, w: Worker, m: MapTask)
    requires SchedInv(job, s)
    ensures SchedInv(job, Mapped(s, w, m))
  {
    RowPlaced(s, Mapped(s, w, m), Map(m));
    KeepsInv(job, s, Mapped(s, w, m));
  }

  lemma MappedOnFine(job: Job, t: Sched, w: Worker, m: MapTask)
    requires SchedInv(job, t)
    ensures Fine(job, MappedOn(t, w, m))
  {
    if t.phase == MapPhase && MapsDone(t) {
      UnblockOk(job, t);
      ScheduleFine(job, Barrier(t));
    } else {
      ScheduleFine(job, t);
      ThenFine(job, Told(t, w, m), ScheduleMr(t));
    }
  }

  lemma MapDoneOk(job: Job, s: Sched, w: Worker, m: MapTask, attempt: nat)
    requires SchedInv(job, s)
    ensures Fine(job, OnMapDone(s, w, m, attempt))
  {
    var row := RowOf(s, Map(m));
    if attempt == row.attempt && row.status == Running {
      MappedOk(job, s, w, m);
      MappedOnFine(job, Mapped(s, w, m), w, m);
    }
  }

  lemma UnblockOk(job: Job, s: Sched)
    requires SchedInv(job, s)
    ensures SchedInv(job, Barrier(s))
  {
    var s' := Barrier(s);
    forall u ensures RunsWell(s', u) { assert RunsWell(s, u); }
    forall u, v ensures Apart(s', u, v) { assert Apart(s, u, v); }
  }

  lemma {:induction false} InsertPerm(job: Job, rows: seq<Row>, row: Row)
    ensures multiset(InsertRow(job, rows, row)) == multiset(rows) + multiset{row}
  {
    if rows != [] && !job.before(row, rows[0]) {
      InsertPerm(job, rows[1..], row);
      assert rows == [rows[0]] + rows[1..];
    }
  }

  lemma {:induction false} SortPerm(job: Job, rows: seq<Row>)
    ensures multiset(SortRows(job, rows)) == multiset(rows)
  {
    if rows != [] {
      SortPerm(job, rows[..|rows| - 1]);
      InsertPerm(job, SortRows(job, rows[..|rows| - 1]), rows[|rows| - 1]);
      assert rows == rows[..|rows| - 1] + [rows[|rows| - 1]];
    }
  }

  lemma ReduceDoneOk(job: Job, s: Sched, r: ReduceTask, attempt: nat, rows: seq<Row>, now: nat)
    requires SchedInv(job, s) && rows == Expected(job, r)
    ensures Fine(job, OnReduceDone(job, s, r, attempt, rows, now))
  {
    var row := RowOf(s, Red(r));
    if attempt == row.attempt && row.status == Running {
      var t := WithRow(s, Red(r), row.(acked := true, status := Done)).(output := s.output + rows);
      RowPlaced(s, t, Red(r));
      assert SchedInv(job, t);
      if ReducesDone(t) {
        SortPerm(job, t.output);
        SameRows(t, t.(phase := DonePhase, completionTick := Some(now), output := SortRows(job, t.output)));
      } else {
        ScheduleFine(job, t);
      }
    }
  }

  lemma RecordOk(job: Job, s: Sched, t: TaskId, attempt: nat)
    requires SchedInv(job, s)
    ensures SchedInv(job, OnRecordDone(s, t, attempt))
  {
    TouchOk(job, s, t, RowOf(s, t).(execTicks := RowOf(s, t).execTicks + RECORD_COST, acked := true));
  }

  // ---------- the workers' invariant ----------

  ghost predicate RunOk(job: Job, run: Run) {
    && (forall m :: m in run.files ==> run.task.Red? && run.files[m] == PartOf(job, job.split(m), run.task.r))
    && (run.task.Red? && run.phase in {Executing, Output} ==> HasAll(run.files))
  }

  ghost predicate WorkerOk(job: Job, s: State) {
    && (forall m :: m in s.disk ==> s.disk[m] == (PartOf(job, job.split(m), R0), PartOf(job, job.split(m), R1)))
    && (s.run.Some? ==> RunOk(job, s.run.value))
  }

  ghost predicate MsgOk(job: Job, msg: Msg) {
    match msg
    case FetchResp(m, r, _, file) => file == PartOf(job, job.split(m), r)
    case ReduceDone(r, _, rows) => rows == Expected(job, r)
    case _ => true
  }

  ghost predicate SendsOk(job: Job, fx: seq<Effect>) {
    forall i :: 0 <= i < |fx| && fx[i].Send? ==> MsgOk(job, fx[i].msg)
  }

  lemma HarmlessSends(job: Job, fx: seq<Effect>)
    requires Harmless(fx)
    ensures SendsOk(job, fx)
  {
    forall i | 0 <= i < |fx| && fx[i].Send? ensures MsgOk(job, fx[i].msg) { assert HarmlessOne(fx[i]); }
  }

  lemma {:induction false} FetchesOk(job: Job, run: Run, r: ReduceTask, n: nat)
    requires n <= 3
    ensures SendsOk(job, Fetches(run, r, n))
  {
    if n > 0 { FetchesOk(job, run, r, n - 1); }
  }

  lemma ArmOk(job: Job, s: State, run: Run, now: nat)
    requires WorkerOk(job, s) && RunOk(job, run)
    ensures WorkerOk(job, Arm(s, run, now).0) && SendsOk(job, Arm(s, run, now).1)
  {
  }

  lemma RecordStepOk(job: Job, s: State, task: TaskId, attempt: nat, nonce: nat, now: nat)
    requires WorkerOk(job, s)
    ensures WorkerOk(job, OnRecord(s, task, attempt, nonce, now).0) && SendsOk(job, OnRecord(s, task, attempt, nonce, now).1)
  {
    if Current(s, task, attempt, nonce, Executing) {
      var run := s.run.value.(recordsDone := s.run.value.recordsDone + 1);
      ArmOk(job, s, run, now);
      if task.Red? { ArmOk(job, s, run.(phase := Output), now); } else { ArmOk(job, s, run.(phase := Disk), now); }
    }
  }

  /** What a reducer with all its input outputs. */
  lemma OutputOk(job: Job, s: State, r: ReduceTask, attempt: nat, nonce: nat)
    requires WorkerOk(job, s)
    ensures WorkerOk(job, OnOutput(s, r, attempt, nonce).0) && SendsOk(job, OnOutput(s, r, attempt, nonce).1)
  {
    if Current(s, Red(r), attempt, nonce, Output) {
      var run := s.run.value;
      assert RunOk(job, run) && HasAll(run.files);
      assert Reduced(run) == Expected(job, r);
    }
  }

  lemma RetryOk(job: Job, s: State, r: ReduceTask, attempt: nat, nonce: nat, now: nat)
    requires WorkerOk(job, s)
    ensures WorkerOk(job, OnFetchRetry(s, r, attempt, nonce, now).0) && SendsOk(job, OnFetchRetry(s, r, attempt, nonce, now).1)
  {
    if Current(s, Red(r), attempt, nonce, Fetching) {
      ArmOk(job, s, s.run.value, now);
      FetchesOk(job, s.run.value, r, 3);
    }
  }

  lemma TimerOk(job: Job, s: State, t: Timer, now: nat)
    requires WorkerOk(job, s)
    ensures WorkerOk(job, OnTimer(job, s, t, now).0) && SendsOk(job, OnTimer(job, s, t, now).1)
  {
    match t {
      case MrRecord(task, attempt, nonce) => { RecordStepOk(job, s, task, attempt, nonce, now); }
      case MrDisk(m, attempt, nonce) => {}
      case MrFetchRetry(r, attempt, nonce) => { RetryOk(job, s, r, attempt, nonce, now); }
      case MrOutput(r, attempt, nonce) => { OutputOk(job, s, r, attempt, nonce); }
      case _ => {}
    }
  }

  lemma AssignReduceOk(job: Job, s: State, r: ReduceTask, attempt: nat, sources: map<MapTask, Worker>, now: nat)
    requires WorkerOk(job, s)
    ensures var q := OnAssignReduce(job, s, r, attempt, sources, now); WorkerOk(job, q.0) && SendsOk(job, q.1)
  {
    var run := Run(Red(r), attempt, Fetching, 0, job.execs(r), sources, map[], 0, 0);
    ArmOk(job, s, run, now);
    FetchesOk(job, run, r, 3);
  }

  lemma FetchRespOk(job: Job, s: State, m: MapTask, r: ReduceTask, attempt: nat, file: PartFile, now: nat)
    requires WorkerOk(job, s) && file == PartOf(job, job.split(m), r)
    ensures var q := OnFetchResp(s, m, r, attempt, file, now); WorkerOk(job, q.0) && SendsOk(job, q.1)
  {
    if s.run.Some? && s.run.value.task == Red(r) && s.run.value.phase == Fetching {
      var got := s.run.value.(files := s.run.value.files[m := file]);
      assert RunOk(job, got);
      if HasAll(got.files) { ArmOk(job, s, got.(phase := Executing), now); }
    }
  }

  lemma MessageOk(job: Job, s: State, from: NodeId, msg: Msg, now: nat)
    requires WorkerOk(job, s) && MsgOk(job, msg)
    ensures WorkerOk(job, OnMessage(job, s, from, msg, now).0) && SendsOk(job, OnMessage(job, s, from, msg, now).1)
  {
    match msg {
      case Ping => { if s.run.Some? { ArmOk(job, s, s.run.value, now); } }
      case AssignMap(m, attempt) => { ArmOk(job, s, Run(Map(m), attempt, Executing, 0, MAP_RECORDS, map[], map[], 0, 0), now); }
      case AssignReduce(r, attempt, sources) => { AssignReduceOk(job, s, r, attempt, sources, now); }
      case FetchResp(m, r, attempt, file) => { FetchRespOk(job, s, m, r, attempt, file, now); }
      case _ => {}
    }
  }

  // ---------- the cluster ----------

  ghost predicate Inv(job: Job, c: Cluster) {
    && SchedInv(job, c.jt)
    && (forall w {:trigger c.ws[w]} :: w in c.ws ==> WorkerOk(job, c.ws[w]))
    && (forall p :: p in c.net ==> MsgOk(job, p.msg))
  }

  lemma {:induction false} PacketsOk(job: Job, from: NodeId, fx: seq<Effect>)
    requires SendsOk(job, fx)
    ensures forall p :: p in Packets(from, fx) ==> MsgOk(job, p.msg)
  {
    if fx != [] { PacketsOk(job, from, fx[..|fx| - 1]); }
  }

  lemma SchedMsgOk(job: Job, s: Sched, w: Worker, msg: Msg, now: nat)
    requires SchedInv(job, s) && MsgOk(job, msg)
    ensures Fine(job, OnMsg(job, s, w, msg, now))
  {
    match msg {
      case Pong(incarnation) => { PongOk(job, s, w, incarnation, now); }
      case RecordDone(t, attempt) => { RecordOk(job, s, t, attempt); }
      case MapDone(m, attempt) => { MapDoneOk(job, s, w, m, attempt); }
      case Fetched(m, r, attempt) => { FetchedOk(job, s, m, r, attempt); }
      case ReduceDone(r, attempt, rows) => { ReduceDoneOk(job, s, r, attempt, rows, now); }
      case _ => {}
    }
  }

  lemma SchedTimerOk(job: Job, s: Sched, t: Timer, now: nat)
    requires SchedInv(job, s)
    ensures Fine(job, OnSchedTimer(s, t, now))
  {
    match t {
      case PingTimer => {
        PingTimerOk(s, now);
        KeepsInv(job, s, OnPingTimer(s, now).0);
      }
      case StartJob => { StartJobOk(job, s); }
      case _ => {}
    }
  }

  lemma JtInv(job: Job, c: Cluster, r: (Sched, seq<Effect>))
    requires Inv(job, c) && Fine(job, r)
    ensures Inv(job, JtStep(c, r))
  {
    HarmlessSends(job, r.1);
    PacketsOk(job, JT, r.1);
  }

  lemma WorkerInv(job: Job, c: Cluster, w: Worker, r: (State, seq<Effect>))
    requires Inv(job, c) && WorkerOk(job, r.0) && SendsOk(job, r.1)
    ensures Inv(job, WorkerStep(c, w, r))
  {
    PacketsOk(job, W(w), r.1);
  }

  lemma StepInv(job: Job, c: Cluster, a: Action)
    requires Inv(job, c) && Enabled(c, a)
    ensures Inv(job, Step(job, c, a))
  {
    match a {
      case RunJob => {
        SameRows(c.jt, OnRunJob(c.jt).0);
        JtInv(job, c, OnRunJob(c.jt));
      }
      case DeliverJt(p, now) => {
        SchedMsgOk(job, c.jt, p.from.w, p.msg, now);
        JtInv(job, c, OnMsg(job, c.jt, p.from.w, p.msg, now));
      }
      case FireJt(t, now) => {
        SchedTimerOk(job, c.jt, t, now);
        JtInv(job, c, OnSchedTimer(c.jt, t, now));
      }
      case DeliverW(p, now) => {
        MessageOk(job, c.ws[p.to.w], p.from, p.msg, now);
        WorkerInv(job, c, p.to.w, OnMessage(job, c.ws[p.to.w], p.from, p.msg, now));
      }
      case FireW(w, t, now) => {
        TimerOk(job, c.ws[w], t, now);
        WorkerInv(job, c, w, OnTimer(job, c.ws[w], t, now));
      }
    }
  }

  lemma {:induction false} ExecInv(job: Job, acts: seq<Action>)
    requires Runs(job, Start(), acts)
    ensures Inv(job, Exec(job, Start(), acts))
  {
    if acts != [] {
      ExecInv(job, acts[..|acts| - 1]);
      StepInv(job, Exec(job, Start(), acts[..|acts| - 1]), acts[|acts| - 1]);
    }
  }

  // ---------- the theorems ----------

  /** In every reachable state, running tasks sit on pairwise distinct live workers. */
  lemma DistinctWorkers(job: Job, acts: seq<Action>, t: TaskId, u: TaskId)
    requires Runs(job, Start(), acts)
    ensures var s := Exec(job, Start(), acts).jt;
      && (RowOf(s, t).status == Running ==> RowOf(s, t).worker.Some? && RowOf(s, t).worker.value in s.live)
      && (t != u && RowOf(s, t).status == Running && RowOf(s, u).status == Running ==> RowOf(s, t).worker != RowOf(s, u).worker)
  {
    ExecInv(job, acts);
    var s := Exec(job, Start(), acts).jt;
    assert RunsWell(s, t) && Apart(s, t, u);
  }

  /** So the one running task that a death finds is the only one on the dead worker. */
  lemma OneFindSuffices(job: Job, acts: seq<Action>, w: Worker, t: TaskId)
    requires Runs(job, Start(), acts)
    ensures !RunsOn(LoseRunning(MarkDead(Exec(job, Start(), acts).jt, w), w), t, w)
  {
    ExecInv(job, acts);
    LosePlaced(Exec(job, Start(), acts).jt, w);
  }

  /** The output of a finished job is exact: one row for every URL that was hit, carrying its count over the
      whole input, and no other row. */
  lemma ExactOutput(job: Job, acts: seq<Action>, row: Row)
    requires Runs(job, Start(), acts) && Exec(job, Start(), acts).jt.phase == DonePhase
    ensures multiset(Exec(job, Start(), acts).jt.output)[row] == if row.n > 0 && Hits(job, row.url) == row.n then 1 else 0
  {
    ExecInv(job, acts);
    ExpectedCounts(job, R0, row.url);
    ExpectedCounts(job, R1, row.url);
    RowOnce(Expected(job, R0), row);
    RowOnce(Expected(job, R1), row);
  }
}
