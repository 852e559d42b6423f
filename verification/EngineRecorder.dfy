/** The simulation as it runs, and the recorder that scrubs along its timeline. */
module EngineRecorder {
  import opened EngineQueue
  import opened EngineSim

  class Simulation<S, P> {
    const mod: Module<S, P>
    const queue: EventQueue<Payload<P>>
    var time: int
    var tag: nat
    var processed: nat
    var rng: nat
    var states: map<NodeId, S>
    var dead: set<NodeId>
    var net: Net
    var eventLog: seq<Logged<P>>

    ghost function View(): Sim<S, P>
      reads this, queue
    {
      Sim(time, tag, processed, rng, queue.heap, states, dead, net, eventLog)
    }

    constructor (mod: Module<S, P>, nodes: seq<NodeId>, seed: nat, opts: NetOptions)
      ensures View() == InitAll(mod, Boot(mod, seed, opts), nodes) && this.mod == mod && fresh(queue)
    {
      this.mod := mod;
      queue := new EventQueue<Payload<P>>();
      time, tag, processed, rng, states, dead, net, eventLog := 0, 0, 0, seed, map[], {}, Net(opts, None), [];
      new;
      for i := 0 to |nodes|
        invariant View() == InitAll(mod, Boot(mod, seed, opts), nodes[..i]) && fresh(queue)
      {
        assert nodes[..i + 1][..i] == nodes[..i];
        var r := mod.init(nodes[i], rng);
        states, rng := states[nodes[i] := r.0], r.1;
        Enqueue(0, nodes[i], KInit, None, None, Nil);
      }
      assert nodes[..|nodes|] == nodes;
    }

    method Enqueue(at: int, target: NodeId, kind: Kind, from: Option<NodeId>, sentAt: Option<int>, payload: Payload<P>)
      modifies this`tag, queue
      ensures View() == Schedule(old(View()), at, target, kind, from, sentAt, payload)
    {
      queue.Push(Event(at, tag, target, kind, from, sentAt, payload));
      tag := tag + 1;
    }

    method Inject(target: NodeId, p: P)
      modifies this`tag, queue
      ensures View() == External(old(View()), target, p)
    {
      Enqueue(time, target, KExternal, None, None, Data(p));
    }

    method Command(a: Action)
      modifies this`tag, queue
      ensures View() == ControlEvent(old(View()), a)
    {
      Enqueue(time, CONTROL_TARGET, KControl, None, None, Control(a));
    }

    method Obey(a: Action)
      modifies this
      ensures View() == ApplyControl(old(View()), a)
    {
      match a {
        case Kill(n) => { dead := dead + {n}; }
        case Revive(n) => { dead := dead - {n}; }
        case Partition(groups) => { net := net.(groups := Some(groups)); }
        case Heal => { net := net.(groups := None); }
        case SetNet(c) => { net := net.(opts := Changed(net.opts, c)); }
      }
    }

    method Transmit(self: NodeId, to: NodeId, body: P)
      modifies this, queue
      ensures View() == ApplyEffect(mod, old(View()), self, Send(to, body))
    {
      var plan := Plan(mod, net, self, to, rng);
      rng := plan.1;
      ghost var s := View();
      for i := 0 to |plan.0|
        invariant View() == Deliveries(s, self, to, body, plan.0[..i])
        invariant time == s.time
      {
        DeliveriesKeep(s, self, to, body, plan.0[..i]);
        assert plan.0[..i + 1][..i] == plan.0[..i];
        Enqueue(time + plan.0[i], to, KMessage, Some(self), Some(time), Data(body));
      }
      assert plan.0[..|plan.0|] == plan.0;
    }

    method Perform(self: NodeId, f: Effect<P>)
      modifies this, queue
      ensures View() == ApplyEffect(mod, old(View()), self, f)
    {
      match f {
        case SetTimer(delay, body) => { Enqueue(time + delay, self, KTimer, None, None, Data(body)); }
        case Send(to, body) => { Transmit(self, to, body); }
      }
    }

    method Reduce(e: Event<Payload<P>>)
      modifies this, queue
      ensures View() == Deliver(mod, old(View()), e)
    {
      var state := if e.target in states then Some(states[e.target]) else None;
      var r := mod.reduce(state, ModuleEvent(e.kind, e.target, e.from, e.time, e.payload), rng);
      states, rng := states[e.target := r.0], r.2;
      ghost var s := View();
      for i := 0 to |r.1|
        invariant View() == ApplyEffects(mod, s, e.target, r.1[..i])
      {
        assert r.1[..i + 1][..i] == r.1[..i];
        Perform(e.target, r.1[i]);
      }
      assert r.1[..|r.1|] == r.1;
    }

    /** Processes one event; returns its log entry, or nothing when idle. */
    method StepOnce() returns (logged: Option<Logged<P>>)
      modifies this, queue
      ensures View() == Step(mod, old(View()))
      ensures logged.None? <==> old(queue.heap) == []
      ensures logged.Some? ==> processed == old(processed) + 1 && eventLog == old(eventLog) + [logged.value]
    {
      StepLogs(mod, View());
      ghost var s := View();
      var popped := queue.Pop();
      if popped.None? { return None; }
      var e := popped.value;
      var isControl := e.kind == KControl;
      var deadTarget := !isControl && e.target in dead;
      var blocked := !isControl && !deadTarget && e.kind == KMessage && e.from.Some? && !CanReach(net, e.from.value, e.target);
      var entry := Logged(processed, e.time, e.target, e.kind, e.from, e.payload, !deadTarget && !blocked,
                          if deadTarget then Some(DeadNode) else if blocked then Some(Cut) else None);
      time, processed, eventLog := e.time, processed + 1, eventLog + [entry];
      assert entry == LogEntry(s, e) && View() == Taken(s);
      if isControl {
        if e.payload.Control? { Obey(e.payload.action); }
      } else if entry.delivered {
        Reduce(e);
      }
      return Some(entry);
    }

    method RunSteps(n: nat)
      modifies this, queue
      ensures View() == StepN(mod, old(View()), n)
    {
      ghost var s := View();
      for i := 0 to n
        invariant View() == StepN(mod, s, i)
      {
        if queue.heap == [] {
          IdleForever(mod, s, i, n);
          return;
        }
        StepNext(mod, s, i);
        var logged := StepOnce();
      }
    }

    method Save() returns (snap: Snapshot<S, P>)
      ensures snap == SnapshotOf(View())
    {
      var heap := queue.ToArray();
      snap := Snapshot(time, tag, processed, rng, heap, states, dead, net, |eventLog|);
    }

    /** Returns false where the program throws: the fields are overwritten, but the log cannot grow back. */
    method Restore(c: Snapshot<S, P>) returns (ok: bool)
      modifies this, queue
      ensures ok == Restored(old(View()), c).Some?
      ensures ok ==> View() == Restored(old(View()), c).value
    {
      time, tag, processed, rng := c.time, c.tag, c.processed, c.rng;
      queue.LoadFrom(c.heap);
      states, dead, net := c.states, c.dead, c.net;
      if c.logLength > |eventLog| { return false; }
      eventLog := eventLog[..c.logLength];
      return true;
    }
  }

  lemma {:induction false} IdleForever<S, P>(m: Module<S, P>, s: Sim<S, P>, a: nat, b: nat)
    requires a <= b && StepN(m, s, a).heap == []
    ensures StepN(m, s, b) == StepN(m, s, a)
    decreases b
  {
    if a < b {
      IdleForever(m, s, a, b - 1);
      StepNext(m, s, b - 1);
      StepLogs(m, StepN(m, s, b - 1));
    }
  }

  // ---------- timelines ----------

  /** The machines a start leads to, by number of steps. */
  type Timeline<!S, !P> = nat -> Sim<S, P>

  ghost function TimelineOf<S, P>(m: Module<S, P>, start: Sim<S, P>): Timeline<S, P> {
    (n: nat) => StepN(m, start, n)
  }

  /** A snapshot of a timeline that begins at position low. */
  ghost predicate OnTimeline<S, P>(line: Timeline<S, P>, low: nat, at: nat, snap: Snapshot<S, P>) {
    at >= low && line(at - low).processed == at && snap == SnapshotOf(line(at - low))
  }

  predicate OnBoundary(at: nat, interval: nat) { interval > 0 && at % interval == 0 }

  predicate Has<S, P>(snapshots: seq<(nat, Snapshot<S, P>)>, at: nat) {
    exists i :: 0 <= i < |snapshots| && snapshots[i].0 == at
  }

  /** Every boundary of the interval up to peak has its snapshot. */
  ghost predicate Covers<S, P>(snapshots: seq<(nat, Snapshot<S, P>)>, interval: nat, low: nat, peak: nat) {
    forall b: nat {:trigger OnBoundary(b, interval)} :: low < b <= peak && OnBoundary(b, interval) ==> Has(snapshots, b)
  }

  ghost predicate Ascending<S, P>(snapshots: seq<(nat, Snapshot<S, P>)>) {
    forall i, j :: 0 <= i < j < |snapshots| ==> snapshots[i].0 < snapshots[j].0
  }

  ghost predicate AllOnTimeline<S, P>(line: Timeline<S, P>, low: nat, peak: nat, snapshots: seq<(nat, Snapshot<S, P>)>) {
    forall i :: 0 <= i < |snapshots| ==> snapshots[i].0 <= peak && OnTimeline(line, low, snapshots[i].0, snapshots[i].1)
  }

  /** The machine stands on the timeline, and the snapshots are of it, in order, one at every boundary passed. */
  ghost predicate Recorded<S, P>(line: Timeline<S, P>, low: nat, interval: nat, peak: nat,
                                 snapshots: seq<(nat, Snapshot<S, P>)>, now: Sim<S, P>)
  {
    && low <= now.processed <= peak && now == line(now.processed - low)
    && snapshots != [] && snapshots[0].0 == low && Ascending(snapshots)
    && AllOnTimeline(line, low, peak, snapshots) && Covers(snapshots, interval, low, peak)
  }

  /** A boundary not yet covered lies past the peak, so its snapshot goes at the end. */
  lemma PushCovers<S, P>(snapshots: seq<(nat, Snapshot<S, P>)>, interval: nat, low: nat, peak: nat, at: nat, snap: Snapshot<S, P>)
    requires Ascending(snapshots) && Covers(snapshots, interval, low, peak) && low < at && OnBoundary(at, interval)
    requires !Has(snapshots, at) && at <= peak + 1 && forall i :: 0 <= i < |snapshots| ==> snapshots[i].0 <= peak
    ensures at == peak + 1 && Ascending(snapshots + [(at, snap)]) && Covers(snapshots + [(at, snap)], interval, low, at)
  {
    var more := snapshots + [(at, snap)];
    forall b: nat | low < b <= at && OnBoundary(b, interval) ensures Has(more, b) {
      if b == at {
        assert more[|snapshots|].0 == b;
      } else {
        assert Has(snapshots, b);
        var i :| 0 <= i < |snapshots| && snapshots[i].0 == b;
        assert more[i].0 == b;
      }
    }
  }

  function Later(a: nat, b: nat): nat { if a < b then b else a }

  /** How many steps lead to a target, which may lie before the recorder's first snapshot. */
  function Landing(k: nat, low: nat): nat { Later(low, k) - low }

  /** next is one event further along than now. */
  ghost predicate Follows<S, P>(line: Timeline<S, P>, low: nat, now: Sim<S, P>, next: Sim<S, P>) {
    next.processed == now.processed + 1 && low <= now.processed && next == line(next.processed - low)
  }

  lemma TimelineIs<S, P>(m: Module<S, P>, start: Sim<S, P>, n: nat)
    ensures TimelineOf(m, start)(n) == StepN(m, start, n)
  {
  }

  lemma TimelineNext<S, P>(m: Module<S, P>, start: Sim<S, P>, n: nat)
    ensures TimelineOf(m, start)(n + 1) == Step(m, TimelineOf(m, start)(n))
  {
    TimelineIs(m, start, n);
    TimelineIs(m, start, n + 1);
    StepNext(m, start, n);
  }

  lemma StepFollows<S, P>(m: Module<S, P>, start: Sim<S, P>, now: Sim<S, P>)
    requires start.processed <= now.processed && now == TimelineOf(m, start)(now.processed - start.processed) && now.heap != []
    ensures Follows(TimelineOf(m, start), start.processed, now, Step(m, now))
  {
    StepLogs(m, now);
    TimelineNext(m, start, now.processed - start.processed);
  }

  /** A step that needs no snapshot: not a boundary, or one that has its snapshot. */
  lemma StepRecorded<S, P>(line: Timeline<S, P>, low: nat, interval: nat, peak: nat,
                           snapshots: seq<(nat, Snapshot<S, P>)>, now: Sim<S, P>, next: Sim<S, P>)
    requires Recorded(line, low, interval, peak, snapshots, now) && Follows(line, low, now, next)
    requires OnBoundary(next.processed, interval) ==> Has(snapshots, next.processed)
    ensures Recorded(line, low, interval, Later(peak, next.processed), snapshots, next)
  {
  }

  /** A step onto a new boundary. */
  lemma StepPushed<S, P>(line: Timeline<S, P>, low: nat, interval: nat, peak: nat,
                         snapshots: seq<(nat, Snapshot<S, P>)>, now: Sim<S, P>, next: Sim<S, P>)
    requires Recorded(line, low, interval, peak, snapshots, now) && Follows(line, low, now, next)
    requires OnBoundary(next.processed, interval) && !Has(snapshots, next.processed)
    ensures Recorded(line, low, interval, Later(peak, next.processed),
                     snapshots + [(next.processed, SnapshotOf(next))], next)
  {
    PushCovers(snapshots, interval, low, peak, next.processed, SnapshotOf(next));
    assert OnTimeline(line, low, next.processed, SnapshotOf(next));
  }

  /** Stepping over ground already covered. */
  lemma ReplayRecorded<S, P>(line: Timeline<S, P>, low: nat, interval: nat, peak: nat,
                             snapshots: seq<(nat, Snapshot<S, P>)>, now: Sim<S, P>, next: Sim<S, P>)
    requires Recorded(line, low, interval, peak, snapshots, now) && Follows(line, low, now, next) && now.processed < peak
    ensures Recorded(line, low, interval, peak, snapshots, next)
  {
  }

  /** Going back to a snapshot at or before the machine's position. */
  lemma BackRecorded<S, P>(line: Timeline<S, P>, low: nat, interval: nat, peak: nat,
                           snapshots: seq<(nat, Snapshot<S, P>)>, now: Sim<S, P>, i: nat)
    requires Recorded(line, low, interval, peak, snapshots, now) && i < |snapshots|
    ensures snapshots[i].0 >= low && snapshots[i].1 == SnapshotOf(line(snapshots[i].0 - low))
    ensures line(snapshots[i].0 - low).processed == snapshots[i].0
    ensures Recorded(line, low, interval, peak, snapshots, line(snapshots[i].0 - low))
  {
    assert OnTimeline(line, low, snapshots[i].0, snapshots[i].1);
  }

  /** Restoring any snapshot on the way to the present succeeds and is exact. */
  lemma RestoreLands<S, P>(m: Module<S, P>, start: Sim<S, P>, now: Sim<S, P>, n: nat, k: nat)
    requires now == TimelineOf(m, start)(n) && k <= n
    ensures EngineSim.Restored(now, SnapshotOf(TimelineOf(m, start)(k))) == Some(TimelineOf(m, start)(k))
  {
    TimelineIs(m, start, n);
    TimelineIs(m, start, k);
    RestoreOnTheWay(m, start, k, n);
  }

  /** An idle machine is where any later target would land it. */
  lemma IdleLands<S, P>(m: Module<S, P>, start: Sim<S, P>, now: Sim<S, P>, index: nat)
    requires start.processed <= now.processed && now == TimelineOf(m, start)(now.processed - start.processed)
    requires now.heap == [] && now.processed <= index
    ensures now == TimelineOf(m, start)(Landing(index, start.processed))
  {
    TimelineIs(m, start, now.processed - start.processed);
    TimelineIs(m, start, index - start.processed);
    IdleForever(m, start, now.processed - start.processed, index - start.processed);
  }

  lemma HereLands<S, P>(line: Timeline<S, P>, low: nat, interval: nat, peak: nat,
                        snapshots: seq<(nat, Snapshot<S, P>)>, now: Sim<S, P>, index: nat)
    requires Recorded(line, low, interval, peak, snapshots, now) && now.processed == Later(low, index)
    ensures now == line(Landing(index, low))
  {
  }

  function UpTo<S, P>(snapshots: seq<(nat, Snapshot<S, P>)>, k: nat): seq<(nat, Snapshot<S, P>)> {
    if snapshots == [] then []
    else UpTo(snapshots[..|snapshots| - 1], k) + if snapshots[|snapshots| - 1].0 <= k then [snapshots[|snapshots| - 1]] else []
  }

  /** In an ascending list what is kept is a prefix. */
  lemma {:induction false} UpToPrefix<S, P>(snapshots: seq<(nat, Snapshot<S, P>)>, k: nat)
    requires Ascending(snapshots)
    ensures UpTo(snapshots, k) <= snapshots
    ensures forall i :: 0 <= i < |snapshots| ==> (snapshots[i].0 <= k <==> i < |UpTo(snapshots, k)|)
  {
    if snapshots != [] {
      var front, last := snapshots[..|snapshots| - 1], snapshots[|snapshots| - 1];
      UpToPrefix(front, k);
      assert forall i :: 0 <= i < |front| ==> front[i].0 < last.0;
      if last.0 <= k { assert UpTo(front, k) == front; }
    }
  }

  lemma UpToRecorded<S, P>(line: Timeline<S, P>, low: nat, interval: nat, peak: nat,
                           snapshots: seq<(nat, Snapshot<S, P>)>, now: Sim<S, P>)
    requires Recorded(line, low, interval, peak, snapshots, now)
    ensures Recorded(line, low, interval, now.processed, UpTo(snapshots, now.processed), now)
  {
    var kept := UpTo(snapshots, now.processed);
    UpToPrefix(snapshots, now.processed);
    forall b: nat | low < b <= now.processed && OnBoundary(b, interval) ensures Has(kept, b) {
      assert Has(snapshots, b);
      var i :| 0 <= i < |snapshots| && snapshots[i].0 == b;
      assert kept[i].0 == b;
    }
  }

  class TimelineRecorder<S, P> {
    const sim: Simulation<S, P>
    const interval: nat
    var snapshots: seq<(nat, Snapshot<S, P>)>
    /** The machine when the recorder was built. */
    ghost const start: Sim<S, P>
    /** The furthest position ever reached. */
    ghost var peak: nat

    ghost predicate Valid()
      reads this, sim, sim.queue
    {
      Recorded(TimelineOf(sim.mod, start), start.processed, interval, peak, snapshots, sim.View())
    }

    constructor (sim: Simulation<S, P>, interval: nat)
      ensures Valid() && this.sim == sim && this.interval == interval && start == sim.View() && sim.View() == old(sim.View())
    {
      this.sim, this.interval, this.start, this.peak := sim, interval, sim.View(), sim.processed;
      var snap := sim.Save();
      this.snapshots := [(sim.processed, snap)];
    }

    /** Takes the snapshot that the position just reached may call for. */
    method Mark(ghost was: Sim<S, P>)
      requires Recorded(TimelineOf(sim.mod, start), start.processed, interval, peak, snapshots, was)
      requires Follows(TimelineOf(sim.mod, start), start.processed, was, sim.View())
      modifies this
      ensures Valid() && sim.View() == old(sim.View())
    {
      ghost var line := TimelineOf(sim.mod, start);
      var at := sim.processed;
      if OnBoundary(at, interval) && !Has(snapshots, at) {
        StepPushed(line, start.processed, interval, peak, snapshots, was, sim.View());
        var snap := sim.Save();
        snapshots := snapshots + [(at, snap)];
      } else {
        StepRecorded(line, start.processed, interval, peak, snapshots, was, sim.View());
      }
      peak := Later(peak, at);
    }

    /** Steps once, with a snapshot at the boundaries; false when idle. */
    method StepOnce() returns (more: bool)
      requires Valid()
      modifies this, sim, sim.queue
      ensures Valid() && sim.View() == Step(sim.mod, old(sim.View()))
      ensures more == (old(sim.queue.heap) != []) && sim.processed == old(sim.processed) + if more then 1 else 0
    {
      ghost var was := sim.View();
      var logged := sim.StepOnce();
      more := logged.Some?;
      if more {
        StepFollows(sim.mod, start, was);
        Mark(was);
      } else {
        StepLogs(sim.mod, was);
      }
    }

    method RunSteps(n: nat)
      requires Valid()
      modifies this, sim, sim.queue
      ensures Valid() && sim.View() == StepN(sim.mod, old(sim.View()), n)
    {
      ghost var s := sim.View();
      for i := 0 to n
        invariant Valid() && sim.View() == StepN(sim.mod, s, i)
      {
        var more := StepOnce();
        if !more {
          IdleForever(sim.mod, s, i, n);
          break;
        }
      }
    }

    /** The machine where a target lands it. */
    ghost predicate LandsAt(index: nat)
      reads this, sim, sim.queue
    {
      sim.View() == TimelineOf(sim.mod, start)(Landing(index, start.processed))
    }

    /** One step towards a position; when idle, the position is as good as reached. */
    method Towards(index: nat) returns (more: bool)
      requires Valid() && sim.processed < index
      modifies this, sim, sim.queue
      ensures Valid() && (if more then sim.processed == old(sim.processed) + 1 else LandsAt(index))
    {
      ghost var was := sim.View();
      more := StepOnce();
      if !more {
        StepLogs(sim.mod, was);
        IdleLands(sim.mod, start, was, index);
      }
    }

    /** Forward to a position, as far as there are events. */
    method Advance(index: nat)
      requires Valid() && index >= sim.processed
      modifies this, sim, sim.queue
      ensures Valid() && LandsAt(index)
    {
      while sim.processed < index
        invariant Valid() && sim.processed <= index
        decreases index - sim.processed
      {
        var more := Towards(index);
        if !more { return; }
      }
      HereLands(TimelineOf(sim.mod, start), start.processed, interval, peak, snapshots, sim.View(), index);
    }

    /** The last snapshot at or before a position, or the first one. */
    method Nearest(index: nat) returns (at: nat)
      requires Valid()
      ensures at < |snapshots| && (snapshots[at].0 <= index || at == 0)
    {
      at := 0;
      for i := 0 to |snapshots|
        invariant at < |snapshots| && (snapshots[at].0 <= index || at == 0)
      {
        if snapshots[i].0 > index { break; }
        at := i;
      }
    }

    /** Restores a snapshot that is not ahead of the machine. */
    method GoBack(at: nat)
      requires Valid() && at < |snapshots| && snapshots[at].0 <= sim.processed
      modifies sim, sim.queue
      ensures Valid() && sim.processed == snapshots[at].0
    {
      ghost var line := TimelineOf(sim.mod, start);
      BackRecorded(line, start.processed, interval, peak, snapshots, sim.View(), at);
      RestoreLands(sim.mod, start, sim.View(), sim.processed - start.processed, snapshots[at].0 - start.processed);
      var ok := sim.Restore(snapshots[at].1);
      assert ok;
    }

    /** One step over ground already covered. */
    method Retrace(index: nat) returns (more: bool)
      requires Valid() && sim.processed < index <= peak
      modifies sim, sim.queue
      ensures Valid() && (if more then sim.processed == old(sim.processed) + 1 else LandsAt(index))
    {
      ghost var was := sim.View();
      var logged := sim.StepOnce();
      more := logged.Some?;
      if more {
        StepFollows(sim.mod, start, was);
        ReplayRecorded(TimelineOf(sim.mod, start), start.processed, interval, peak, snapshots, was, sim.View());
      } else {
        StepLogs(sim.mod, was);
        IdleLands(sim.mod, start, was, index);
      }
    }

    /** From a snapshot to the position, without looking at the boundaries again. */
    method Replay(index: nat)
      requires Valid() && index <= peak && sim.processed <= Later(start.processed, index)
      modifies sim, sim.queue
      ensures Valid() && LandsAt(index)
    {
      while sim.processed < index
        invariant Valid() && sim.processed <= Later(start.processed, index)
        decreases index - sim.processed
      {
        var more := Retrace(index);
        if !more { return; }
      }
      HereLands(TimelineOf(sim.mod, start), start.processed, interval, peak, snapshots, sim.View(), index);
    }

    /** Lands where exactly index events have been processed: whatever was stepped and scrubbed before, the machine is
        the one that so many steps from the start produce. It never goes back past the first snapshot, and the
        restore never throws. */
    method ScrubTo(index: nat)
      requires Valid()
      modifies this, sim, sim.queue
      ensures Valid() && sim.View() == StepN(sim.mod, start, Landing(index, start.processed))
    {
      TimelineIs(sim.mod, start, Landing(index, start.processed));
      if index >= sim.processed {
        Advance(index);
        return;
      }
      var at := Nearest(index);
      GoBack(at);
      Replay(index);
    }

    /** Forgets the snapshots past the present. */
    method InvalidateFuture()
      requires Valid()
      modifies this
      ensures Valid() && sim.View() == old(sim.View())
      ensures snapshots <= old(snapshots)
      ensures forall i :: 0 <= i < |old(snapshots)| ==> (old(snapshots)[i].0 <= sim.processed <==> i < |snapshots|)
    {
      var kept, i := [], 0;
      ghost var all := snapshots;
      while i < |snapshots|
        invariant i <= |snapshots| && snapshots == all && kept == UpTo(all[..i], sim.processed)
      {
        assert all[..i + 1][..i] == all[..i];
        if snapshots[i].0 <= sim.processed { kept := kept + [snapshots[i]]; }
        i := i + 1;
      }
      assert all[..|all|] == all;
      UpToRecorded(TimelineOf(sim.mod, start), start.processed, interval, peak, all, sim.View());
      UpToPrefix(all, sim.processed);
      snapshots := kept;
      peak := sim.processed;
    }
  }
}
