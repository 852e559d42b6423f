/** The worker of the MapReduce side: one task at a time, map output on local disk, reduce input by fetching. */
module BatchWorker {
  import opened BatchShared

  datatype RunPhase = Executing | Disk | Fetching | Output

  datatype Run = Run(
    task: TaskId, attempt: nat, phase: RunPhase, recordsDone: nat, recordsTotal: nat,
    sources: map<MapTask, Worker>, files: map<MapTask, PartFile>, nonce: nat, expectedFireAt: nat)

  datatype State = State(id: Worker, incarnation: nat, run: Option<Run>, disk: map<MapTask, (PartFile, PartFile)>)

  datatype Msg =
    | Ping
    | Pong(incarnation: nat)
    | Reset(incarnation: nat)
    | AssignMap(m: MapTask, attempt: nat)
    | AssignReduce(r: ReduceTask, attempt: nat, sources: map<MapTask, Worker>)
    | RecordDone(task: TaskId, attempt: nat)
    | MapDone(m: MapTask, attempt: nat)
    | Fetch(m: MapTask, r: ReduceTask, attempt: nat)
    | FetchResp(m: MapTask, r: ReduceTask, attempt: nat, file: PartFile)
    | Fetched(m: MapTask, r: ReduceTask, attempt: nat)
    | MapRelocated(m: MapTask, worker: Worker)
    | ReduceDone(r: ReduceTask, attempt: nat, rows: seq<Row>)

  datatype Timer =
    | PingTimer
    | StartJob
    | MrRecord(task: TaskId, attempt: nat, nonce: nat)
    | MrDisk(m: MapTask, attempt: nat, nonce: nat)
    | MrOutput(r: ReduceTask, attempt: nat, nonce: nat)
    | MrFetchRetry(r: ReduceTask, attempt: nat, nonce: nat)

  datatype Effect = Send(to: NodeId, msg: Msg) | SetTimer(delay: nat, timer: Timer)

  function Init(w: Worker): State { State(w, 0, None, map[]) }

  /** The timer of the phase a run is in. */
  function ChainTimer(run: Run): Timer {
    match run.phase
    case Executing => MrRecord(run.task, run.attempt, run.nonce)
    case Disk => if run.task.Map? then MrDisk(run.task.m, run.attempt, run.nonce) else PingTimer
    case Output => if run.task.Red? then MrOutput(run.task.r, run.attempt, run.nonce) else PingTimer
    case Fetching => if run.task.Red? then MrFetchRetry(run.task.r, run.attempt, run.nonce) else PingTimer
  }

  function ChainDelay(p: RunPhase): nat {
    match p case Executing => RECORD_COST case Disk => DISK_WRITE_TICKS case Output => OUTPUT_TICKS case Fetching => FETCH_RETRY
  }

  function Armed(run: Run, now: nat): Run {
    run.(nonce := run.nonce + 1, expectedFireAt := now + ChainDelay(run.phase))
  }

  /** Starting the next link of a run's timer chain. */
  function Arm(s: State, run: Run, now: nat): (State, seq<Effect>) {
    var armed := Armed(run, now);
    (s.(run := Some(armed)), [SetTimer(ChainDelay(run.phase), ChainTimer(armed))])
  }

  predicate Current(s: State, task: TaskId, attempt: nat, nonce: nat, phase: RunPhase) {
    && s.run.Some? && s.run.value.task == task && s.run.value.attempt == attempt
    && s.run.value.nonce == nonce && s.run.value.phase == phase
  }

  function OnRecord(s: State, task: TaskId, attempt: nat, nonce: nat, now: nat): (State, seq<Effect>) {
    if !Current(s, task, attempt, nonce, Executing) then (s, [])
    else
      var run := s.run.value.(recordsDone := s.run.value.recordsDone + 1);
      var next := if run.recordsDone < run.recordsTotal then Arm(s, run, now)
                  else if task.Red? then Arm(s, run.(phase := Output), now)
                  else Arm(s, run.(phase := Disk), now);
      (next.0, [Send(JT, RecordDone(task, attempt))] + next.1)
  }

  function OnDisk(job: Job, s: State, m: MapTask, attempt: nat, nonce: nat): (State, seq<Effect>) {
    if !Current(s, Map(m), attempt, nonce, Disk) then (s, [])
    else
      (s.(disk := s.disk[m := (PartOf(job, job.split(m), R0), PartOf(job, job.split(m), R1))], run := None),
       [Send(JT, MapDone(m, attempt))])
  }

  /** Asking the sources of the first n map tasks for what is missing. */
  function Fetches(run: Run, r: ReduceTask, n: nat): seq<Effect>
    requires n <= 3
  {
    if n == 0 then []
    else
      var m := MAP_TASKS[n - 1];
      Fetches(run, r, n - 1) +
        if m !in run.files && m in run.sources then [Send(W(run.sources[m]), Fetch(m, r, run.attempt))] else []
  }

  function OnFetchRetry(s: State, r: ReduceTask, attempt: nat, nonce: nat, now: nat): (State, seq<Effect>) {
    if !Current(s, Red(r), attempt, nonce, Fetching) then (s, [])
    else
      var next := Arm(s, s.run.value, now);
      (next.0, Fetches(s.run.value, r, 3) + next.1)
  }

  function FileFor(run: Run, m: MapTask): PartFile { if m in run.files then run.files[m] else [] }

  function Reduced(run: Run): PartFile {
    Merge(Merge(Merge([], FileFor(run, M0)), FileFor(run, M1)), FileFor(run, M2))
  }

  function OnOutput(s: State, r: ReduceTask, attempt: nat, nonce: nat): (State, seq<Effect>) {
    if !Current(s, Red(r), attempt, nonce, Output) then (s, [])
    else (s.(run := None), [Send(JT, ReduceDone(r, attempt, Reduced(s.run.value)))])
  }

  function OnTimer(job: Job, s: State, t: Timer, now: nat): (State, seq<Effect>) {
    match t
    case MrRecord(task, attempt, nonce) => OnRecord(s, task, attempt, nonce, now)
    case MrDisk(m, attempt, nonce) => OnDisk(job, s, m, attempt, nonce)
    case MrFetchRetry(r, attempt, nonce) => OnFetchRetry(s, r, attempt, nonce, now)
    case MrOutput(r, attempt, nonce) => OnOutput(s, r, attempt, nonce)
    case _ => (s, [])
  }

  /** A ping is answered, and re-arms a chain whose timer was lost while the worker was down. */
  function OnPing(s: State, now: nat): (State, seq<Effect>) {
    var pong := [Send(JT, Pong(s.incarnation))];
    if s.run.Some? && now > s.run.value.expectedFireAt then
      var next := Arm(s, s.run.value, now);
      (next.0, pong + next.1)
    else (s, pong)
  }

  function OnAssignMap(s: State, m: MapTask, attempt: nat, now: nat): (State, seq<Effect>) {
    if m in s.disk then (s, [Send(JT, MapDone(m, attempt))])
    else if s.run.Some? && s.run.value.task == Map(m) && s.run.value.attempt == attempt then (s, [])
    else Arm(s, Run(Map(m), attempt, Executing, 0, MAP_RECORDS, map[], map[], 0, 0), now)
  }

  function OnAssignReduce(job: Job, s: State, r: ReduceTask, attempt: nat, sources: map<MapTask, Worker>, now: nat)
    : (State, seq<Effect>)
  {
    if s.run.Some? && s.run.value.task == Red(r) && s.run.value.attempt == attempt then (s, [])
    else
      var run := Run(Red(r), attempt, Fetching, 0, job.execs(r), sources, map[], 0, 0);
      var next := Arm(s, run, now);
      (next.0, Fetches(run, r, 3) + next.1)
  }

  function OnFetch(s: State, from: NodeId, m: MapTask, r: ReduceTask, attempt: nat): seq<Effect> {
    if m in s.disk then [Send(from, FetchResp(m, r, attempt, if r == R0 then s.disk[m].0 else s.disk[m].1))] else []
  }

  predicate HasAll(files: map<MapTask, PartFile>) { M0 in files && M1 in files && M2 in files }

  function OnFetchResp(s: State, m: MapTask, r: ReduceTask, attempt: nat, file: PartFile, now: nat): (State, seq<Effect>) {
    if s.run.None? then (s, [])
    else
      var run := s.run.value;
      if run.task != Red(r) || run.attempt != attempt || run.phase != Fetching || m in run.files then (s, [])
      else
        var got := run.(files := run.files[m := file]);
        var fx := [Send(JT, Fetched(m, r, attempt))];
        if HasAll(got.files) then
          var next := Arm(s, got.(phase := Executing), now);
          (next.0, fx + next.1)
        else (s.(run := Some(got)), fx)
  }

  function OnRelocated(s: State, m: MapTask, w: Worker): State {
    if s.run.Some? && s.run.value.task.Red? && s.run.value.phase == Fetching
    then s.(run := Some(s.run.value.(sources := s.run.value.sources[m := w]))) else s
  }

  function OnMessage(job: Job, s: State, from: NodeId, msg: Msg, now: nat): (State, seq<Effect>) {
    match msg
    case Ping => OnPing(s, now)
    case Reset(incarnation) => (State(s.id, incarnation, None, map[]), [Send(JT, Pong(incarnation))])
    case AssignMap(m, attempt) => OnAssignMap(s, m, attempt, now)
    case AssignReduce(r, attempt, sources) => OnAssignReduce(job, s, r, attempt, sources, now)
    case Fetch(m, r, attempt) => (s, OnFetch(s, from, m, r, attempt))
    case FetchResp(m, r, attempt, file) => OnFetchResp(s, m, r, attempt, file, now)
    case MapRelocated(m, w) => (OnRelocated(s, m, w), [])
    case _ => (s, [])
  }
}
