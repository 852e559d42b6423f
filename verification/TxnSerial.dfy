/** At the serial level, every interleaving of two transactions ends as running one and then the other. */
module TxnSerial {
  import opened TxnEngine

  // ---------- what an operation does not look at ----------

  /** The parts of a node that the operations of x neither read nor change: the queue and its counters, and
      whether the other transaction is idle or waiting. */
  datatype Dressing = Dressing(status: Status, queue: seq<Step>, queued: nat, skipped: nat)

  function Dress(s: Node, y: TxnId, d: Dressing): Node {
    WithInfo(s, y, Info(s, y).(status := d.status))
      .(queue := d.queue, queuedOps := d.queued, skippedOps := s.skippedOps + d.skipped)
  }

  predicate Fits(s: Node, y: TxnId, d: Dressing) {
    d.status == Info(s, y).status || (d.status != Committed && Info(s, y).status != Committed)
  }

  lemma ReadDressed(s: Node, x: TxnId, key: string, d: Dressing)
    ensures DoRead(Dress(s, Other(x), d), x, key) == Dress(DoRead(s, x, key), Other(x), d)
    ensures PickVersion(Dress(s, Other(x), d), x, key) == PickVersion(s, x, key)
    ensures Info(DoRead(s, x, key), Other(x)) == Info(s, Other(x))
  {
  }

  lemma AppendDressed(s: Node, x: TxnId, key: string, n: int, d: Dressing)
    ensures Append(Dress(s, Other(x), d), x, key, n) == Dress(Append(s, x, key, n), Other(x), d)
    ensures Info(Append(s, x, key, n), Other(x)) == Info(s, Other(x))
  {
  }

  lemma SameLog(s: Node, x: TxnId, d: Dressing)
    ensures Info(Dress(s, Other(x), d), x) == Info(s, x)
  {
  }

  lemma SetDressed(s: Node, x: TxnId, key: string, n: int, d: Dressing)
    ensures DoWrite(Dress(s, Other(x), d), x, key, Set(n)) == Dress(DoWrite(s, x, key, Set(n)), Other(x), d)
    ensures Info(DoWrite(s, x, key, Set(n)), Other(x)) == Info(s, Other(x))
  {
    AppendDressed(s, x, key, n, d);
  }

  function Increment(s: Node, x: TxnId, key: string, n: int): Node {
    Append(DoRead(s, x, key), x, key, Recorded(key, PickVersion(s, x, key)).value + n)
  }

  lemma IncIs(s: Node, x: TxnId, key: string, n: int)
    ensures var prior := LastRead(Info(s, x).readLog, key);
      DoWrite(s, x, key, Inc(n)) == if prior.Some? then Append(s, x, key, prior.value.value + n) else Increment(s, x, key, n)
  {
  }

  lemma BlindDressed(s: Node, x: TxnId, key: string, n: int, d: Dressing)
    ensures Increment(Dress(s, Other(x), d), x, key, n) == Dress(Increment(s, x, key, n), Other(x), d)
    ensures Info(Increment(s, x, key, n), Other(x)) == Info(s, Other(x))
  {
    ReadDressed(s, x, key, d);
    AppendDressed(DoRead(s, x, key), x, key, Recorded(key, PickVersion(s, x, key)).value + n, d);
  }

  lemma IncDressed(s: Node, x: TxnId, key: string, n: int, d: Dressing)
    ensures DoWrite(Dress(s, Other(x), d), x, key, Inc(n)) == Dress(DoWrite(s, x, key, Inc(n)), Other(x), d)
    ensures Info(DoWrite(s, x, key, Inc(n)), Other(x)) == Info(s, Other(x))
  {
    SameLog(s, x, d);
    IncIs(s, x, key, n);
    IncIs(Dress(s, Other(x), d), x, key, n);
    var prior := LastRead(Info(s, x).readLog, key);
    if prior.Some? { AppendDressed(s, x, key, prior.value.value + n, d); } else { BlindDressed(s, x, key, n, d); }
  }

  lemma WriteDressed(s: Node, x: TxnId, key: string, value: WriteValue, d: Dressing)
    ensures DoWrite(Dress(s, Other(x), d), x, key, value) == Dress(DoWrite(s, x, key, value), Other(x), d)
    ensures Info(DoWrite(s, x, key, value), Other(x)) == Info(s, Other(x))
  {
    match value {
      case Set(n) => { SetDressed(s, x, key, n, d); }
      case Inc(n) => { IncDressed(s, x, key, n, d); }
    }
  }

  lemma {:induction false} ReadAllDressed(s: Node, x: TxnId, keys: seq<string>, d: Dressing)
    ensures ReadAll(Dress(s, Other(x), d), x, keys).0 == Dress(ReadAll(s, x, keys).0, Other(x), d)
    ensures ReadAll(Dress(s, Other(x), d), x, keys).1 == ReadAll(s, x, keys).1
    ensures Info(ReadAll(s, x, keys).0, Other(x)) == Info(s, Other(x))
  {
    if keys != [] {
      ReadAllDressed(s, x, keys[..|keys| - 1], d);
      ReadDressed(ReadAll(s, x, keys[..|keys| - 1]).0, x, keys[|keys| - 1], d);
    }
  }

  lemma AbortDressed(s: Node, x: TxnId, reason: Reason, d: Dressing)
    ensures DoAbort(Dress(s, Other(x), d), x, reason) == Dress(DoAbort(s, x, reason), Other(x), d)
    ensures Info(DoAbort(s, x, reason), Other(x)) == Info(s, Other(x))
  {
  }

  lemma {:induction false} ConflictDressed(s: Node, x: TxnId, writes: seq<string>, snap: nat, d: Dressing)
    ensures Conflict(Dress(s, Other(x), d), x, writes, snap) == Conflict(s, x, writes, snap)
  {
    if writes != [] { ConflictDressed(s, x, writes[1..], snap, d); }
  }

  lemma {:induction false} LostDressed(s: Node, x: TxnId, writes: seq<string>, d: Dressing)
    ensures LostUpdates(Dress(s, Other(x), d), x, writes) == LostUpdates(s, x, writes)
  {
    if writes != [] { LostDressed(s, x, writes[..|writes| - 1], d); }
  }

  lemma SealDressed(s: Node, x: TxnId, d: Dressing)
    ensures Seal(Dress(s, Other(x), d), x) == Dress(Seal(s, x), Other(x), d)
    ensures Info(Seal(s, x), Other(x)) == Info(s, Other(x))
  {
  }

  lemma DetectDressed(s: Node, x: TxnId, d: Dressing)
    requires Fits(s, Other(x), d)
    ensures Detect(Dress(s, Other(x), d), x) == Dress(Detect(s, x), Other(x), d)
    ensures Info(Detect(s, x), Other(x)) == Info(s, Other(x))
  {
    LostDressed(s, x, Info(s, x).writes, d);
  }

  lemma CommitDressed(s: Node, x: TxnId, d: Dressing)
    requires Fits(s, Other(x), d)
    ensures DoCommit(Dress(s, Other(x), d), x) == Dress(DoCommit(s, x), Other(x), d)
    ensures Info(DoCommit(s, x), Other(x)) == Info(s, Other(x))
  {
    var snap := if Info(s, x).snapshotAt.Some? then Info(s, x).snapshotAt.value else 0;
    ConflictDressed(s, x, Info(s, x).writes, snap, d);
    var conflict := if s.level == SI then Conflict(s, x, Info(s, x).writes, snap) else None;
    if conflict.Some? {
      AbortDressed(s, x, WriteConflict(conflict.value), d);
    } else {
      SealDressed(s, x, d);
      DetectDressed(Seal(s, x), x, d);
    }
  }

  lemma PerformDressed(s: Node, x: TxnId, op: Op, d: Dressing)
    requires Fits(s, Other(x), d)
    ensures Perform(Dress(s, Other(x), d), x, op) == Dress(Perform(s, x, op), Other(x), d)
    ensures Info(Perform(s, x, op), Other(x)) == Info(s, Other(x))
  {
    match op {
      case Begin => {}
      case Read(key) => { ReadDressed(s, x, key, d); }
      case Write(key, value) => { WriteDressed(s, x, key, value, d); }
      case Ensure(keys, atLeast) => {
        ReadAllDressed(s, x, keys, d);
        var r := ReadAll(s, x, keys);
        AbortDressed(r.0, x, EnsureFailed(keys, r.1, atLeast), d);
      }
      case Commit => { CommitDressed(s, x, d); }
      case Abort => { AbortDressed(s, x, RolledBack, d); }
    }
  }

  lemma ReleaseDressed(s: Node, x: TxnId, d: Dressing)
    ensures Release(Dress(s, Other(x), d), x) == Dress(Release(s, x), Other(x), d)
    ensures Info(Release(s, x), Other(x)) == Info(s, Other(x))
  {
  }

  lemma ApplyDressed(s: Node, x: TxnId, op: Op, d: Dressing)
    requires Fits(s, Other(x), d)
    ensures Apply(Dress(s, Other(x), d), x, op) == Dress(Apply(s, x, op), Other(x), d)
    ensures Info(Apply(s, x, op), Other(x)) == Info(s, Other(x))
  {
    PerformDressed(s, x, op, d);
    ReleaseDressed(Perform(s, x, op), x, d);
  }

  // ---------- running steps one after another ----------

  /** A step of a transaction that has the engine to itself. */
  function DirectStep(s: Node, step: Step): Node {
    if Done(s, step.txn) then s.(skippedOps := s.skippedOps + 1) else Apply(s, step.txn, step.op)
  }

  function Direct(s: Node, steps: seq<Step>): Node {
    if steps == [] then s else DirectStep(Direct(s, steps[..|steps| - 1]), steps[|steps| - 1])
  }

  ghost predicate OnlyOf(steps: seq<Step>, x: TxnId) {
    forall i :: 0 <= i < |steps| ==> steps[i].txn == x
  }

  lemma DirectStepDressed(s: Node, step: Step, d: Dressing)
    requires Fits(s, Other(step.txn), d)
    ensures DirectStep(Dress(s, Other(step.txn), d), step) == Dress(DirectStep(s, step), Other(step.txn), d)
    ensures Info(DirectStep(s, step), Other(step.txn)) == Info(s, Other(step.txn))
  {
    if !Done(s, step.txn) { ApplyDressed(s, step.txn, step.op, d); }
  }

  lemma {:induction false} DirectDressed(s: Node, steps: seq<Step>, x: TxnId, d: Dressing)
    requires OnlyOf(steps, x) && Fits(s, Other(x), d)
    ensures Direct(Dress(s, Other(x), d), steps) == Dress(Direct(s, steps), Other(x), d)
    ensures Info(Direct(s, steps), Other(x)) == Info(s, Other(x))
  {
    if steps != [] {
      DirectDressed(s, steps[..|steps| - 1], x, d);
      DirectStepDressed(Direct(s, steps[..|steps| - 1]), steps[|steps| - 1], d);
    }
  }

  lemma {:induction false} DirectConcat(s: Node, a: seq<Step>, b: seq<Step>)
    ensures Direct(s, a + b) == Direct(Direct(s, a), b)
  {
    if b == [] {
      assert a + b == a;
    } else {
      assert (a + b)[..|a + b| - 1] == a + b[..|b| - 1];
      DirectConcat(s, a, b[..|b| - 1]);
    }
  }

  lemma DirectOne(s: Node, step: Step)
    ensures Direct(s, [step]) == DirectStep(s, step)
  {
    assert [step][..0] == [];
    assert Direct(s, []) == s;
  }

  // ---------- programs ----------

  predicate Inner(op: Op) { op.Read? || op.Write? || op.Ensure? }

  predicate Last(op: Op) { op == Commit || op == Abort }

  /** The first n steps of a well-formed program: a begin, some reads and writes, one commit or abort. */
  ghost predicate Program(steps: seq<Step>, x: TxnId, whole: nat) {
    && OnlyOf(steps, x) && |steps| <= whole
    && (forall i :: 0 <= i < |steps| ==> (steps[i].op == Begin <==> i == 0))
    && (forall i :: 0 < i < |steps| ==> (Last(steps[i].op) <==> i == whole - 1))
  }

  lemma PerformStatus(s: Node, x: TxnId, op: Op)
    ensures Inner(op) ==> Perform(s, x, op).activeSer == s.activeSer
    ensures Inner(op) ==> Info(Perform(s, x, op), x).status in {Info(s, x).status, Aborted}
    ensures Last(op) ==> Perform(s, x, op).activeSer == s.activeSer && Done(Perform(s, x, op), x)
  {
    match op {
      case Ensure(keys, atLeast) => { ReadAllStatus(s, x, keys); }
      case _ => {}
    }
  }

  lemma {:induction false} ReadAllStatus(s: Node, x: TxnId, keys: seq<string>)
    ensures var r := ReadAll(s, x, keys).0; r.activeSer == s.activeSer && Info(r, x).status == Info(s, x).status
  {
    if keys != [] { ReadAllStatus(s, x, keys[..|keys| - 1]); }
  }

  /** Who holds the engine while x runs alone. */
  ghost predicate Holds(s: Node, x: TxnId) {
    s.level == SER && if Done(s, x) then s.activeSer == None else s.activeSer == Some(x) && Info(s, x).status == Active
  }

  /** A begin finds the engine free; any other step finds its transaction holding it, or done. */
  ghost predicate CanTake(s: Node, step: Step) {
    s.level == SER && if step.op == Begin then s.activeSer == None && !Done(s, step.txn) else Holds(s, step.txn)
  }

  lemma StepHolds(s: Node, step: Step)
    requires CanTake(s, step)
    ensures Holds(DirectStep(s, step), step.txn)
    ensures Last(step.op) ==> Done(DirectStep(s, step), step.txn)
  {
    if !Done(s, step.txn) { PerformStatus(s, step.txn, step.op); }
  }

  lemma {:induction false} DirectHolds(s: Node, steps: seq<Step>, x: TxnId, whole: nat)
    requires Program(steps, x, whole) && steps != [] && whole >= 2
    requires s.level == SER && s.activeSer == None && !Done(s, x)
    ensures Holds(Direct(s, steps), x)
    ensures |steps| == whole ==> Done(Direct(s, steps), x)
  {
    var front, last := steps[..|steps| - 1], steps[|steps| - 1];
    if front != [] { DirectHolds(s, front, x, whole); }
    StepHolds(Direct(s, front), last);
  }

  // ---------- draining ----------

  /** The queue as the drained steps see it: nothing but the queue is different. */
  function Unqueued(s: Node): Node { s.(queue := []) }

  lemma {:induction false} DrainIsDirect(s: Node, b: TxnId)
    requires OnlyOf(s.queue, b) && (s.queue != [] ==> CanTake(s, s.queue[0]))
    requires forall i :: 0 < i < |s.queue| ==> s.queue[i].op != Begin
    ensures DrainQueue(s) == Direct(Unqueued(s), s.queue)
    decreases |s.queue|
  {
    if s.queue != [] {
      var head, rest := s.queue[0], s.queue[1..];
      var next := DirectStep(s.(queue := rest), head);
      StepHolds(s.(queue := rest), head);
      DrainOnce(s);
      QueueAside(s, head, rest);
      DrainIsDirect(next, b);
      assert s.queue == [head] + rest;
      DirectConcat(Unqueued(s), [head], rest);
      DirectOne(Unqueued(s), head);
    }
  }

  /** The head of the queue, taken when it can be. */
  lemma DrainOnce(s: Node)
    requires s.queue != [] && CanTake(s.(queue := s.queue[1..]), s.queue[0])
    ensures !Stuck(s) && DrainNext(s) == DirectStep(s.(queue := s.queue[1..]), s.queue[0])
  {
  }

  /** A step does not see the queue. */
  lemma QueueAside(s: Node, step: Step, rest: seq<Step>)
    ensures DirectStep(s.(queue := rest), step).queue == rest
    ensures Unqueued(DirectStep(s.(queue := rest), step)) == DirectStep(Unqueued(s), step)
  {
    var d := Dressing(Info(s, Other(step.txn)).status, rest, s.queuedOps, 0);
    DirectStepDressed(Unqueued(s), step, d);
    assert Dress(Unqueued(s), Other(step.txn), d) == s.(queue := rest);
    QueueKeptByStep(Unqueued(s), step);
  }

  lemma QueueKeptByStep(s: Node, step: Step)
    ensures DirectStep(s, step).queue == s.queue && DirectStep(s, step).queuedOps == s.queuedOps
  {
  }

  // ---------- interleavings ----------

  function StepsOf(steps: seq<Step>, x: TxnId): seq<Step> {
    if steps == [] then []
    else StepsOf(steps[..|steps| - 1], x) + if steps[|steps| - 1].txn == x then [steps[|steps| - 1]] else []
  }

  lemma {:induction false} StepsOnlyOf(steps: seq<Step>, x: TxnId)
    ensures OnlyOf(StepsOf(steps, x), x)
  {
    if steps != [] { StepsOnlyOf(steps[..|steps| - 1], x); }
  }

  /** Where the engine stands after some steps of an interleaving in which a began first. */
  ghost predicate Blocked(s: Node, s0: Node, a: TxnId, pa: seq<Step>, pb: seq<Step>) {
    !Done(Direct(s0, pa), a) &&
    s == Dress(Direct(s0, pa), Other(a), Dressing(if pb == [] then Idle else Waiting, pb, s0.queuedOps + |pb|, 0))
  }

  ghost predicate Caught(s: Node, s0: Node, a: TxnId, pa: seq<Step>, pb: seq<Step>) {
    Done(Direct(s0, pa), a) && s == Direct(s0, pa + pb).(queuedOps := s.queuedOps)
  }

  ghost predicate Start(s0: Node) {
    s0.level == SER && s0.activeSer == None && s0.queue == [] && s0.t1.status == Idle && s0.t2.status == Idle
  }

  lemma DressNothing(s: Node, y: TxnId, n: nat)
    ensures Dress(s, y, Dressing(Info(s, y).status, s.queue, n, 0)) == s.(queuedOps := n)
  {
  }

  /** While a holds the engine, a step of b is parked. */
  lemma ParkStep(s: Node, s0: Node, a: TxnId, pa: seq<Step>, pb: seq<Step>, step: Step, whole: nat)
    requires Start(s0) && Blocked(s, s0, a, pa, pb) && step.txn == Other(a)
    requires Program(pa, a, whole) && pa != [] && whole >= 2
    ensures Blocked(RunStep(s, step), s0, a, pa, pb + [step])
  {
    DirectHolds(s0, pa, a, whole);
    IdleOther(s0, pa, a);
  }

  lemma IdleOther(s0: Node, pa: seq<Step>, a: TxnId)
    requires Start(s0) && OnlyOf(pa, a)
    ensures Info(Direct(s0, pa), Other(a)) == Info(s0, Other(a)) && Direct(s0, pa).queue == []
    ensures Direct(s0, pa).queuedOps == s0.queuedOps && Direct(s0, pa).level == SER
  {
    var d := Dressing(Idle, [], s0.queuedOps, 0);
    DressNothing(s0, Other(a), s0.queuedOps);
    DirectDressed(s0, pa, a, d);
  }

  lemma {:induction false} QueueKept(s: Node, steps: seq<Step>)
    ensures var r := Direct(s, steps); r.queue == s.queue && r.queuedOps == s.queuedOps && r.level == s.level
  {
    if steps != [] { QueueKept(s, steps[..|steps| - 1]); }
  }

  lemma SnocSteps(s: Node, steps: seq<Step>, step: Step)
    ensures Direct(s, steps + [step]) == DirectStep(Direct(s, steps), step)
  {
    assert (steps + [step])[..|steps|] == steps;
  }

  lemma BeginForgets(s: Node, w: Node, b: TxnId, step: Step)
    requires step == Step(b, Begin) && Info(s, b).status == Idle && w == WithInfo(s, b, Info(s, b).(status := Waiting))
    ensures DirectStep(w, step) == DirectStep(s, step)
  {
  }

  /** A parked transaction begins as an idle one would. */
  lemma WaitingBegins(s: Node, b: TxnId, pb: seq<Step>)
    requires OnlyOf(pb, b) && pb != [] && pb[0].op == Begin && Info(s, b).status == Idle
    ensures Direct(WithInfo(s, b, Info(s, b).(status := Waiting)), pb) == Direct(s, pb)
  {
    var w := WithInfo(s, b, Info(s, b).(status := Waiting));
    assert pb == [pb[0]] + pb[1..];
    DirectConcat(s, [pb[0]], pb[1..]);
    DirectConcat(w, [pb[0]], pb[1..]);
    DirectOne(s, pb[0]);
    DirectOne(w, pb[0]);
    BeginForgets(s, w, b, pb[0]);
  }

  lemma DressCounts(s: Node, y: TxnId, n: nat, k: nat)
    requires s.queue == []
    ensures Dress(s, y, Dressing(Info(s, y).status, [], n, k)) == s.(queuedOps := n, skippedOps := s.skippedOps + k)
  {
  }

  lemma QueuedFrame(s: Node, pb: seq<Step>, b: TxnId, n: nat, k: nat)
    requires OnlyOf(pb, b) && s.queue == []
    ensures var r := Direct(s, pb);
      Direct(s.(queuedOps := n, skippedOps := s.skippedOps + k), pb) == r.(queuedOps := n, skippedOps := r.skippedOps + k)
  {
    DirectDressed(s, pb, b, Dressing(Info(s, Other(b)).status, [], n, k));
    QueueKept(s, pb);
    DressCounts(s, Other(b), n, k);
    DressCounts(Direct(s, pb), Other(b), n, k);
  }

  /** The engine frees up: the parked steps of b run. */
  lemma DrainWaiting(w: Node, b: TxnId, pb: seq<Step>, n: nat)
    requires w.level == SER && w.activeSer == None && w.queue == [] && Info(w, b).status == Waiting
    requires OnlyOf(pb, b) && pb != [] && forall i :: 0 <= i < |pb| ==> (pb[i].op == Begin <==> i == 0)
    ensures DrainQueue(w.(queue := pb, queuedOps := n)) == Direct(w, pb).(queuedOps := n)
  {
    DrainIsDirect(w.(queue := pb, queuedOps := n), b);
    assert Unqueued(w.(queue := pb, queuedOps := n)) == w.(queuedOps := n, skippedOps := w.skippedOps + 0);
    QueuedFrame(w, pb, b, n, 0);
  }

  lemma DrainParked(d1: Node, a: TxnId, pb: seq<Step>, n: nat)
    requires Done(d1, a) && Holds(d1, a) && Info(d1, Other(a)).status == Idle && d1.queue == []
    requires OnlyOf(pb, Other(a)) && forall i :: 0 <= i < |pb| ==> (pb[i].op == Begin <==> i == 0)
    ensures DrainQueue(Dress(d1, Other(a), Dressing(if pb == [] then Idle else Waiting, pb, n, 0)))
         == Direct(d1, pb).(queuedOps := n)
  {
    var b := Other(a);
    if pb != [] {
      var w := WithInfo(d1, b, Info(d1, b).(status := Waiting));
      assert Dress(d1, b, Dressing(Waiting, pb, n, 0)) == w.(queue := pb, queuedOps := n);
      DrainWaiting(w, b, pb, n);
      WaitingBegins(d1, b, pb);
    }
  }

  lemma ActiveStep(s: Node, s0: Node, a: TxnId, pa: seq<Step>, pb: seq<Step>, step: Step, whole: nat)
    requires Start(s0) && Blocked(s, s0, a, pa, pb) && step.txn == a && (pa == [] ==> pb == [])
    requires Program(pa + [step], a, whole) && whole >= 2
    requires OnlyOf(pb, Other(a)) && forall i :: 0 <= i < |pb| ==> (pb[i].op == Begin <==> i == 0)
    ensures Blocked(RunStep(s, step), s0, a, pa + [step], pb) || Caught(RunStep(s, step), s0, a, pa + [step], pb)
  {
    assert forall i :: 0 <= i < |pa| ==> (pa + [step])[i] == pa[i];
    assert (pa + [step])[|pa|] == step;
    IdleOther(s0, pa, a);
    IdleOther(s0, pa + [step], a);
    SnocSteps(s0, pa, step);
    if pa != [] { DirectHolds(s0, pa, a, whole); }
    DirectHolds(s0, pa + [step], a, whole);
    DirectConcat(s0, pa + [step], pb);
    var st := if pb == [] then Idle else Waiting;
    TakeAndDrain(Direct(s0, pa), a, pb, step, Dressing(st, pb, s0.queuedOps + |pb|, 0));
  }

  /** A step of a with b's steps parked behind it. */
  lemma TakeAndDrain(d0: Node, a: TxnId, pb: seq<Step>, step: Step, d: Dressing)
    requires step.txn == a && CanTake(d0, step) && !Done(d0, a) && d0.queue == [] && d0.level == SER
    requires Info(d0, Other(a)).status == Idle && d == Dressing(if pb == [] then Idle else Waiting, pb, d.queued, 0)
    requires OnlyOf(pb, Other(a)) && forall i :: 0 <= i < |pb| ==> (pb[i].op == Begin <==> i == 0)
    ensures var d1 := DirectStep(d0, step);
      RunStep(Dress(d0, Other(a), d), step)
      == if Done(d1, a) then Direct(d1, pb).(queuedOps := d.queued) else Dress(d1, Other(a), d)
  {
    ApplyDressed(d0, a, step.op, d);
    StepHolds(d0, step);
    TakeDressed(d0, a, step, d);
    DrainAfter(DirectStep(d0, step), a, pb, d);
  }

  lemma TakeDressed(d0: Node, a: TxnId, step: Step, d: Dressing)
    requires step.txn == a && CanTake(d0, step) && !Done(d0, a) && d0.level == SER && Fits(d0, Other(a), d)
    ensures RunStep(Dress(d0, Other(a), d), step) == DrainQueue(Dress(Apply(d0, a, step.op), Other(a), d))
  {
    ApplyDressed(d0, a, step.op, d);
  }

  lemma DrainAfter(d1: Node, a: TxnId, pb: seq<Step>, d: Dressing)
    requires Holds(d1, a) && d1.queue == [] && Info(d1, Other(a)).status == Idle
    requires d == Dressing(if pb == [] then Idle else Waiting, pb, d.queued, 0)
    requires OnlyOf(pb, Other(a)) && forall i :: 0 <= i < |pb| ==> (pb[i].op == Begin <==> i == 0)
    ensures DrainQueue(Dress(d1, Other(a), d))
         == if Done(d1, a) then Direct(d1, pb).(queuedOps := d.queued) else Dress(d1, Other(a), d)
  {
    if Done(d1, a) { DrainParked(d1, a, pb, d.queued); }
  }

  /** What x leaves alone in the other transaction's record. */
  lemma InfoKept(s: Node, steps: seq<Step>, x: TxnId)
    requires OnlyOf(steps, x)
    ensures Info(Direct(s, steps), Other(x)) == Info(s, Other(x))
  {
    DirectDressed(s, steps, x, Dressing(Info(s, Other(x)).status, [], 0, 0));
  }

  lemma SkipIs(d0: Node, step: Step)
    requires Done(d0, step.txn)
    ensures DirectStep(d0, step) == d0.(skippedOps := d0.skippedOps + 1)
  {
  }

  /** A skipped step counts the same before and after the other transaction's steps. */
  lemma SkipEarly(d0: Node, d1: Node, pb: seq<Step>, b: TxnId)
    requires d0.queue == [] && OnlyOf(pb, b) && d1 == d0.(skippedOps := d0.skippedOps + 1)
    ensures var r := Direct(d0, pb); Direct(d1, pb) == r.(skippedOps := r.skippedOps + 1)
  {
    QueuedFrame(d0, pb, b, d0.queuedOps, 1);
    QueueKept(d0, pb);
  }

  lemma SkipStep(s: Node, s0: Node, a: TxnId, pa: seq<Step>, pb: seq<Step>, step: Step)
    requires Start(s0) && Caught(s, s0, a, pa, pb) && step.txn == a && OnlyOf(pa, a) && OnlyOf(pb, Other(a))
    ensures Caught(RunStep(s, step), s0, a, pa + [step], pb)
  {
    DirectConcat(s0, pa, pb);
    DirectConcat(s0, pa + [step], pb);
    SnocSteps(s0, pa, step);
    QueueKept(s0, pa);
    SkipIs(Direct(s0, pa), step);
    SkipEarly(Direct(s0, pa), DirectStep(Direct(s0, pa), step), pb, Other(a));
    InfoKept(Direct(s0, pa), pb, Other(a));
  }

  lemma LateStep(s: Node, s0: Node, a: TxnId, pa: seq<Step>, pb: seq<Step>, step: Step, wa: nat, wb: nat)
    requires Start(s0) && Caught(s, s0, a, pa, pb) && step.txn == Other(a)
    requires Program(pa, a, wa) && pa != [] && wa >= 2 && Program(pb + [step], Other(a), wb) && wb >= 2
    ensures Caught(RunStep(s, step), s0, a, pa, pb + [step])
  {
    var b, d0 := Other(a), Direct(s0, pa);
    assert forall i :: 0 <= i < |pb| ==> (pb + [step])[i] == pb[i];
    assert (pb + [step])[|pb|] == step;
    DirectConcat(s0, pa, pb);
    DirectConcat(s0, pa, pb + [step]);
    SnocSteps(d0, pb, step);
    IdleOther(s0, pa, a);
    DirectHolds(s0, pa, a, wa);
    var e0 := Direct(d0, pb);
    if pb != [] { DirectHolds(d0, pb, b, wb); }
    QueueKept(d0, pb);
    LateTake(e0, s, step);
  }

  lemma LateTake(e0: Node, s: Node, step: Step)
    requires e0.level == SER && e0.queue == [] && s == e0.(queuedOps := s.queuedOps)
    requires Done(e0, step.txn) || CanTake(e0, step)
    ensures RunStep(s, step) == DirectStep(e0, step).(queuedOps := s.queuedOps)
  {
    var d := Dressing(Info(e0, Other(step.txn)).status, [], s.queuedOps, 0);
    DressNothing(e0, Other(step.txn), s.queuedOps);
    DirectStepDressed(e0, step, d);
  }

  lemma StepsSplit(steps: seq<Step>, x: TxnId)
    requires steps != []
    ensures var front, last := steps[..|steps| - 1], steps[|steps| - 1];
      && (last.txn == x ==> StepsOf(steps, x) == StepsOf(front, x) + [last])
      && (last.txn != x ==> StepsOf(steps, x) == StepsOf(front, x))
  {
  }

  lemma ProgramFront(steps: seq<Step>, last: Step, x: TxnId, whole: nat)
    requires Program(steps + [last], x, whole)
    ensures Program(steps, x, whole)
  {
    assert forall i :: 0 <= i < |steps| ==> (steps + [last])[i] == steps[i];
  }

  /** Where the engine stands after any prefix of an interleaving. */
  lemma {:induction false} Standing(s0: Node, steps: seq<Step>, a: TxnId, wa: nat, wb: nat)
    requires Start(s0) && wa >= 2 && wb >= 2 && (steps != [] ==> steps[0].txn == a)
    requires Program(StepsOf(steps, a), a, wa) && Program(StepsOf(steps, Other(a)), Other(a), wb)
    ensures steps != [] ==> StepsOf(steps, a) != []
    ensures var s, pa, pb := Run(s0, steps), StepsOf(steps, a), StepsOf(steps, Other(a));
      Blocked(s, s0, a, pa, pb) || Caught(s, s0, a, pa, pb)
  {
    if steps == [] {
      DressNothing(s0, Other(a), s0.queuedOps);
    } else {
      var front, last := steps[..|steps| - 1], steps[|steps| - 1];
      var pa, pb := StepsOf(front, a), StepsOf(front, Other(a));
      StepsSplit(steps, a);
      StepsSplit(steps, Other(a));
      if last.txn == a { ProgramFront(pa, last, a, wa); } else { ProgramFront(pb, last, Other(a), wb); }
      Standing(s0, front, a, wa, wb);
      OneStep(Run(s0, front), s0, a, pa, pb, last, wa, wb);
    }
  }

  lemma OneStep(s: Node, s0: Node, a: TxnId, pa: seq<Step>, pb: seq<Step>, step: Step, wa: nat, wb: nat)
    requires Start(s0) && wa >= 2 && wb >= 2 && (pa == [] ==> pb == [] && step.txn == a)
    requires Blocked(s, s0, a, pa, pb) || Caught(s, s0, a, pa, pb)
    requires Program(pa, a, wa) && Program(pb, Other(a), wb)
    requires step.txn == a ==> Program(pa + [step], a, wa)
    requires step.txn != a ==> Program(pb + [step], Other(a), wb)
    ensures var pa', pb' := if step.txn == a then pa + [step] else pa, if step.txn == a then pb else pb + [step];
      Blocked(RunStep(s, step), s0, a, pa', pb') || Caught(RunStep(s, step), s0, a, pa', pb')
  {
    if Blocked(s, s0, a, pa, pb) {
      if step.txn == a { ActiveStep(s, s0, a, pa, pb, step, wa); } else { ParkStep(s, s0, a, pa, pb, step, wa); }
    } else {
      if step.txn == a { SkipStep(s, s0, a, pa, pb, step); } else { LateStep(s, s0, a, pa, pb, step, wa, wb); }
    }
  }

  // ---------- the theorem ----------

  ghost predicate Whole(steps: seq<Step>, x: TxnId) {
    |steps| >= 2 && Program(steps, x, |steps|)
  }

  /** A complete interleaving ends as the first-begun transaction running alone and then the other. */
  lemma Finishes(s0: Node, steps: seq<Step>, a: TxnId)
    requires Start(s0) && steps != [] && steps[0].txn == a
    requires Whole(StepsOf(steps, a), a) && Whole(StepsOf(steps, Other(a)), Other(a))
    ensures var s := Run(s0, steps);
      && s == Direct(s0, StepsOf(steps, a) + StepsOf(steps, Other(a))).(queuedOps := s.queuedOps)
      && s.queue == [] && s.activeSer == None && Done(s, T1) && Done(s, T2)
  {
    var pa, pb := StepsOf(steps, a), StepsOf(steps, Other(a));
    Standing(s0, steps, a, |pa|, |pb|);
    DirectHolds(s0, pa, a, |pa|);
    IdleOther(s0, pa, a);
    DirectConcat(s0, pa, pb);
    var d0 := Direct(s0, pa);
    DirectHolds(d0, pb, Other(a), |pb|);
    QueueKept(d0, pb);
    DirectDressed(d0, pb, Other(a), Dressing(Info(d0, a).status, [], 0, 0));
  }

  lemma {:induction false} StepsOfOnly(steps: seq<Step>, x: TxnId, y: TxnId)
    requires OnlyOf(steps, x)
    ensures StepsOf(steps, y) == if x == y then steps else []
  {
    if steps != [] { StepsOfOnly(steps[..|steps| - 1], x, y); }
  }

  lemma {:induction false} StepsOfConcat(a: seq<Step>, b: seq<Step>, x: TxnId)
    ensures StepsOf(a + b, x) == StepsOf(a, x) + StepsOf(b, x)
  {
    if b == [] {
      assert a + b == a;
    } else {
      assert (a + b)[..|a + b| - 1] == a + b[..|b| - 1];
      StepsOfConcat(a, b[..|b| - 1], x);
    }
  }

  /** The serial level is serial: up to the count of parked steps, every interleaving of two complete
      transactions leaves the node exactly as the schedule that runs the first-begun one entirely and then
      the other, with nothing left in the queue. */
  lemma SerialEquivalence(s0: Node, steps: seq<Step>)
    requires Start(s0) && steps != []
    requires Whole(StepsOf(steps, T1), T1) && Whole(StepsOf(steps, T2), T2)
    ensures var a := steps[0].txn;
      var serial := StepsOf(steps, a) + StepsOf(steps, Other(a));
      && Run(s0, steps).queue == []
      && Run(s0, steps) == Run(s0, serial).(queuedOps := Run(s0, steps).queuedOps)
  {
    var a := steps[0].txn;
    var pa, pb := StepsOf(steps, a), StepsOf(steps, Other(a));
    StepsOnlyOf(steps, a);
    StepsOnlyOf(steps, Other(a));
    Finishes(s0, steps, a);
    StepsOfConcat(pa, pb, a);
    StepsOfConcat(pa, pb, Other(a));
    StepsOfOnly(pa, a, a);
    StepsOfOnly(pb, Other(a), a);
    StepsOfOnly(pa, a, Other(a));
    StepsOfOnly(pb, Other(a), Other(a));
    assert pa + [] == pa && [] + pb == pb;
    Finishes(s0, pa + pb, a);
  }
}
