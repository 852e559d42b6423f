/** The deterministic machine: a virtual clock, a queue of events, node states, and a network that draws every
    fate from a seeded generator. */
module EngineSim {
  import opened EngineQueue

  const CONTROL_TARGET: NodeId := "#control"

  // ---------- the network ----------

  datatype NetOptions = NetOptions(latMin: int, latMax: int, dropRate: real, duplicateRate: real)

  datatype Net = Net(opts: NetOptions, groups: Option<seq<seq<NodeId>>>)

  /** A partial change of options. */
  datatype NetChange = NetChange(latency: Option<(int, int)>, dropRate: Option<real>, duplicateRate: Option<real>)

  function GroupOf(groups: seq<seq<NodeId>>, n: NodeId): Option<seq<NodeId>> {
    if groups == [] then None else if n in groups[0] then Some(groups[0]) else GroupOf(groups[1..], n)
  }

  /** Unlisted nodes are reachable by all. */
  predicate CanReach(net: Net, from: NodeId, to: NodeId) {
    net.groups.None? || GroupOf(net.groups.value, from).None? || GroupOf(net.groups.value, to).None?
    || to in GroupOf(net.groups.value, from).value
  }

  function Changed(o: NetOptions, c: NetChange): NetOptions {
    NetOptions(if c.latency.Some? then c.latency.value.0 else o.latMin, if c.latency.Some? then c.latency.value.1 else o.latMax,
               if c.dropRate.Some? then c.dropRate.value else o.dropRate,
               if c.duplicateRate.Some? then c.duplicateRate.value else o.duplicateRate)
  }

  // ---------- modules ----------

  datatype Action =
    | Kill(node: NodeId)
    | Revive(node: NodeId)
    | Partition(groups: seq<seq<NodeId>>)
    | Heal
    | SetNet(change: NetChange)

  datatype Payload<+P> = Nil | Data(data: P) | Control(action: Action)

  datatype ModuleEvent<+P> = ModuleEvent(kind: Kind, self: NodeId, from: Option<NodeId>, time: int, payload: Payload<P>)

  datatype Effect<+P> = Send(to: NodeId, body: P) | SetTimer(delay: int, body: P)

  /** What the engine runs: a reducer that may draw from the generator, whose whole state is one number. */
  datatype Module<!S, !P> = Module(
    init: (NodeId, nat) -> (S, nat),
    reduce: (Option<S>, ModuleEvent<P>, nat) -> (S, seq<Effect<P>>, nat),
    draw: nat -> (real, nat))

  datatype DropReason = DeadNode | Cut

  datatype Logged<+P> = Logged(
    index: nat, time: int, target: NodeId, kind: Kind, from: Option<NodeId>, payload: Payload<P>,
    delivered: bool, dropReason: Option<DropReason>)

  datatype Sim<+S, +P> = Sim(
    time: int, tag: nat, processed: nat, rng: nat, heap: seq<Event<Payload<P>>>, states: map<NodeId, S>,
    dead: set<NodeId>, net: Net, eventLog: seq<Logged<P>>)

  // ---------- scheduling ----------

  function Schedule<S, P>(s: Sim<S, P>, time: int, target: NodeId, kind: Kind, from: Option<NodeId>,
                          sentAt: Option<int>, payload: Payload<P>): Sim<S, P>
  {
    s.(heap := PushTo(s.heap, Event(time, s.tag, target, kind, from, sentAt, payload)), tag := s.tag + 1)
  }

  function External<S, P>(s: Sim<S, P>, target: NodeId, p: P): Sim<S, P> {
    Schedule(s, s.time, target, KExternal, None, None, Data(p))
  }

  function ControlEvent<S, P>(s: Sim<S, P>, a: Action): Sim<S, P> {
    Schedule(s, s.time, CONTROL_TARGET, KControl, None, None, Control(a))
  }

  /** A uniform draw of an integer from min to max inclusive. */
  function DrawInt<S, P>(m: Module<S, P>, rng: nat, min: int, max: int): (int, nat) {
    var d := m.draw(rng);
    (min + (d.0 * ((max + 1 - min) as real)).Floor, d.1)
  }

  /** The delays of the copies of a message that will arrive, and the generator afterwards. */
  function Plan<S, P>(m: Module<S, P>, net: Net, from: NodeId, to: NodeId, rng: nat): (seq<int>, nat) {
    if !CanReach(net, from, to) then ([], rng)
    else
      var drop := m.draw(rng);
      if drop.0 < net.opts.dropRate then ([], drop.1)
      else
        var first := DrawInt(m, drop.1, net.opts.latMin, net.opts.latMax);
        var twice := m.draw(first.1);
        if twice.0 < net.opts.duplicateRate then
          var second := DrawInt(m, twice.1, net.opts.latMin, net.opts.latMax);
          ([first.0, second.0], second.1)
        else ([first.0], twice.1)
  }

  function Deliveries<S, P>(s: Sim<S, P>, self: NodeId, to: NodeId, body: P, delays: seq<int>): Sim<S, P> {
    if delays == [] then s
    else Schedule(Deliveries(s, self, to, body, delays[..|delays| - 1]), s.time + delays[|delays| - 1], to, KMessage,
                  Some(self), Some(s.time), Data(body))
  }

  function ApplyEffect<S, P>(m: Module<S, P>, s: Sim<S, P>, self: NodeId, f: Effect<P>): Sim<S, P> {
    match f
    case SetTimer(delay, body) => Schedule(s, s.time + delay, self, KTimer, None, None, Data(body))
    case Send(to, body) =>
      var plan := Plan(m, s.net, self, to, s.rng);
      Deliveries(s.(rng := plan.1), self, to, body, plan.0)
  }

  function ApplyEffects<S, P>(m: Module<S, P>, s: Sim<S, P>, self: NodeId, fx: seq<Effect<P>>): Sim<S, P> {
    if fx == [] then s else ApplyEffect(m, ApplyEffects(m, s, self, fx[..|fx| - 1]), self, fx[|fx| - 1])
  }

  function ApplyControl<S, P>(s: Sim<S, P>, a: Action): Sim<S, P> {
    match a
    case Kill(n) => s.(dead := s.dead + {n})
    case Revive(n) => s.(dead := s.dead - {n})
    case Partition(groups) => s.(net := s.net.(groups := Some(groups)))
    case Heal => s.(net := s.net.(groups := None))
    case SetNet(c) => s.(net := s.net.(opts := Changed(s.net.opts, c)))
  }

  // ---------- one event ----------

  function LogEntry<S, P>(s: Sim<S, P>, e: Event<Payload<P>>): Logged<P> {
    var dead := e.kind != KControl && e.target in s.dead;
    var blocked := e.kind == KMessage && !dead && e.from.Some? && !CanReach(s.net, e.from.value, e.target);
    Logged(s.processed, e.time, e.target, e.kind, e.from, e.payload, !dead && !blocked,
           if dead then Some(DeadNode) else if blocked then Some(Cut) else None)
  }

  function Deliver<S, P>(m: Module<S, P>, s: Sim<S, P>, e: Event<Payload<P>>): Sim<S, P> {
    var state := if e.target in s.states then Some(s.states[e.target]) else None;
    var r := m.reduce(state, ModuleEvent(e.kind, e.target, e.from, e.time, e.payload), s.rng);
    ApplyEffects(m, s.(states := s.states[e.target := r.0], rng := r.2), e.target, r.1)
  }

  /** The event logged and off the queue, before anything is done about it. */
  function Taken<S, P>(s: Sim<S, P>): Sim<S, P>
    requires s.heap != []
  {
    s.(heap := PopFrom(s.heap), time := s.heap[0].time, processed := s.processed + 1,
       eventLog := s.eventLog + [LogEntry(s, s.heap[0])])
  }

  /** Processing exactly one event, if there is one. */
  function Step<S, P>(m: Module<S, P>, s: Sim<S, P>): Sim<S, P> {
    if s.heap == [] then s
    else
      var e, t := s.heap[0], Taken(s);
      if e.kind == KControl then (if e.payload.Control? then ApplyControl(t, e.payload.action) else t)
      else if LogEntry(s, e).delivered then Deliver(m, t, e)
      else t
  }

  function Iterate<T>(f: T -> T, x: T, n: nat): T {
    if n == 0 then x else f(Iterate(f, x, n - 1))
  }

  /** The machine after n steps, or as many as there are. */
  function StepN<S, P>(m: Module<S, P>, s: Sim<S, P>, n: nat): Sim<S, P> {
    Iterate((t: Sim<S, P>) => Step(m, t), s, n)
  }

  lemma {:induction false} IterateAdds<T>(f: T -> T, x: T, a: nat, b: nat)
    ensures Iterate(f, x, a + b) == Iterate(f, Iterate(f, x, a), b)
  {
    if b > 0 { IterateAdds(f, x, a, b - 1); }
  }

  /** What each step keeps, a run keeps. */
  lemma {:induction false} IterateKeeps<T(!new)>(f: T -> T, keep: T -> bool, x: T, n: nat)
    requires keep(x) && forall y :: keep(y) ==> keep(f(y))
    ensures keep(Iterate(f, x, n))
  {
    if n > 0 { IterateKeeps(f, keep, x, n - 1); }
  }

  lemma StepNext<S, P>(m: Module<S, P>, s: Sim<S, P>, n: nat)
    ensures StepN(m, s, 0) == s && StepN(m, s, n + 1) == Step(m, StepN(m, s, n))
  {
  }

  datatype Snapshot<+S, +P> = Snapshot(
    time: int, tag: nat, processed: nat, rng: nat, heap: seq<Event<Payload<P>>>, states: map<NodeId, S>,
    dead: set<NodeId>, net: Net, logLength: nat)

  function SnapshotOf<S, P>(s: Sim<S, P>): Snapshot<S, P> {
    Snapshot(s.time, s.tag, s.processed, s.rng, s.heap, s.states, s.dead, s.net, |s.eventLog|)
  }

  /** Restoring throws when the snapshot remembers a longer log than there is. */
  function Restored<S, P>(s: Sim<S, P>, c: Snapshot<S, P>): Option<Sim<S, P>> {
    if c.logLength > |s.eventLog| then None
    else Some(Sim(c.time, c.tag, c.processed, c.rng, c.heap, c.states, c.dead, c.net, s.eventLog[..c.logLength]))
  }

  // ---------- what steps do to the log ----------

  lemma {:induction false} DeliveriesKeep<S, P>(s: Sim<S, P>, self: NodeId, to: NodeId, body: P, delays: seq<int>)
    ensures var r := Deliveries(s, self, to, body, delays);
      r.eventLog == s.eventLog && r.processed == s.processed && r.time == s.time
  {
    if delays != [] { DeliveriesKeep(s, self, to, body, delays[..|delays| - 1]); }
  }

  lemma {:induction false} EffectsKeep<S, P>(m: Module<S, P>, s: Sim<S, P>, self: NodeId, fx: seq<Effect<P>>)
    ensures var r := ApplyEffects(m, s, self, fx);
      r.eventLog == s.eventLog && r.processed == s.processed && r.time == s.time
  {
    if fx != [] {
      EffectsKeep(m, s, self, fx[..|fx| - 1]);
      var t, f := ApplyEffects(m, s, self, fx[..|fx| - 1]), fx[|fx| - 1];
      if f.Send? {
        var plan := Plan(m, t.net, self, f.to, t.rng);
        DeliveriesKeep(t.(rng := plan.1), self, f.to, f.body, plan.0);
      }
    }
  }

  /** A step processes one event and logs it at the end, or nothing is queued and nothing changes. */
  lemma StepLogs<S, P>(m: Module<S, P>, s: Sim<S, P>)
    ensures s.heap == [] ==> Step(m, s) == s
    ensures s.heap != [] ==>
      Step(m, s).processed == s.processed + 1 && Step(m, s).eventLog == s.eventLog + [LogEntry(s, s.heap[0])]
  {
    if s.heap != [] {
      var e, t := s.heap[0], Taken(s);
      var state := if e.target in t.states then Some(t.states[e.target]) else None;
      var r := m.reduce(state, ModuleEvent(e.kind, e.target, e.from, e.time, e.payload), t.rng);
      EffectsKeep(m, t.(states := t.states[e.target := r.0], rng := r.2), e.target, r.1);
    }
  }

  lemma {:induction false} StepNLogs<S, P>(m: Module<S, P>, s: Sim<S, P>, n: nat)
    ensures var r := StepN(m, s, n); s.processed <= r.processed <= s.processed + n && s.eventLog <= r.eventLog
    ensures |StepN(m, s, n).eventLog| - |s.eventLog| == StepN(m, s, n).processed - s.processed
  {
    StepNext(m, s, 0);
    if n > 0 {
      StepNLogs(m, s, n - 1);
      StepNext(m, s, n - 1);
      StepLogs(m, StepN(m, s, n - 1));
    }
  }

  lemma StepNAdds<S, P>(m: Module<S, P>, s: Sim<S, P>, a: nat, b: nat)
    ensures StepN(m, s, a + b) == StepN(m, StepN(m, s, a), b)
  {
    IterateAdds((t: Sim<S, P>) => Step(m, t), s, a, b);
  }

  lemma RestoreExact<S, P>(early: Sim<S, P>, late: Sim<S, P>)
    requires early.eventLog <= late.eventLog
    ensures Restored(late, SnapshotOf(early)) == Some(early)
  {
    assert late.eventLog[..|early.eventLog|] == early.eventLog;
  }

  lemma RestoreLater<S, P>(m: Module<S, P>, early: Sim<S, P>, k: nat, late: Sim<S, P>)
    requires late == StepN(m, early, k)
    ensures Restored(late, SnapshotOf(early)) == Some(early)
  {
    StepNLogs(m, early, k);
    RestoreExact(early, late);
  }

  /** Going back: a snapshot taken on the way restores, from anywhere later, exactly the machine it was taken of. */
  lemma RestoreOnTheWay<S, P>(m: Module<S, P>, s: Sim<S, P>, a: nat, b: nat)
    requires a <= b
    ensures Restored(StepN(m, s, b), SnapshotOf(StepN(m, s, a))) == Some(StepN(m, s, a))
  {
    RestoreAlong(m, s, a, b - a, StepN(m, s, a), StepN(m, s, b));
  }

  lemma RestoreAlong<S, P>(m: Module<S, P>, s: Sim<S, P>, a: nat, k: nat, early: Sim<S, P>, late: Sim<S, P>)
    requires early == StepN(m, s, a) && late == StepN(m, s, a + k)
    ensures Restored(late, SnapshotOf(early)) == Some(early)
  {
    StepNAdds(m, s, a, k);
    RestoreLater(m, early, k, late);
  }

  // ---------- the clock ----------

  /** The generator draws from [0, 1), and no timer is set in the past. */
  ghost predicate Calm<S(!new), P(!new)>(m: Module<S, P>) {
    && (forall r :: 0.0 <= m.draw(r).0 < 1.0)
    && (forall state, e, r, i :: 0 <= i < |m.reduce(state, e, r).1| && m.reduce(state, e, r).1[i].SetTimer? ==>
          m.reduce(state, e, r).1[i].delay >= 0)
  }

  predicate LatencyOk(o: NetOptions) { 0 <= o.latMin <= o.latMax }

  predicate ChangeOk<P>(p: Payload<P>) {
    p.Control? && p.action.SetNet? && p.action.change.latency.Some? ==>
      0 <= p.action.change.latency.value.0 <= p.action.change.latency.value.1
  }

  /** Queued events lie in the present or the future, carry tags already used, and set sensible latencies. */
  ghost predicate EventOk<P>(e: Event<Payload<P>>, time: int, tag: nat) {
    time <= e.time && e.tag < tag && ChangeOk(e.payload)
  }

  ghost predicate Ticking<S, P>(s: Sim<S, P>) {
    HeapOk(s.heap) && LatencyOk(s.net.opts) && forall i :: 0 <= i < |s.heap| ==> EventOk(s.heap[i], s.time, s.tag)
  }

  /** Every event of h is in the bag. */
  lemma HeapFrom<T>(h: seq<T>, bag: multiset<T>, i: nat)
    requires multiset(h) <= bag && i < |h|
    ensures h[i] in bag
  {
    assert h[i] in multiset(h);
  }

  lemma ScheduleTicks<S, P>(s: Sim<S, P>, time: int, target: NodeId, kind: Kind, from: Option<NodeId>,
                            sentAt: Option<int>, payload: Payload<P>)
    requires Ticking(s) && s.time <= time && ChangeOk(payload)
    ensures Ticking(Schedule(s, time, target, kind, from, sentAt, payload))
  {
    var e := Event(time, s.tag, target, kind, from, sentAt, payload);
    var h := PushTo(s.heap, e);
    PushOk(s.heap, e);
    forall i | 0 <= i < |h| ensures EventOk(h[i], s.time, s.tag + 1) {
      HeapFrom(h, multiset(s.heap) + multiset{e}, i);
      assert h[i] == e || h[i] in s.heap;
    }
  }

  lemma ScaledFloor(x: real, k: int)
    requires 0.0 <= x && k >= 0
    ensures (x * (k as real)).Floor >= 0
  {
    assert x * (k as real) >= 0.0;
  }

  lemma PlanLater<S, P>(m: Module<S, P>, net: Net, from: NodeId, to: NodeId, rng: nat)
    requires (forall r :: 0.0 <= m.draw(r).0 < 1.0) && LatencyOk(net.opts)
    ensures forall i :: 0 <= i < |Plan(m, net, from, to, rng).0| ==> Plan(m, net, from, to, rng).0[i] >= 0
  {
    var k := net.opts.latMax + 1 - net.opts.latMin;
    forall r ensures DrawInt(m, r, net.opts.latMin, net.opts.latMax).0 >= 0 { ScaledFloor(m.draw(r).0, k); }
  }

  lemma {:induction false} DeliveriesTick<S, P>(s: Sim<S, P>, self: NodeId, to: NodeId, body: P, delays: seq<int>)
    requires Ticking(s) && forall i :: 0 <= i < |delays| ==> delays[i] >= 0
    ensures Ticking(Deliveries(s, self, to, body, delays))
  {
    if delays != [] {
      var front := Deliveries(s, self, to, body, delays[..|delays| - 1]);
      DeliveriesTick(s, self, to, body, delays[..|delays| - 1]);
      DeliveriesKeep(s, self, to, body, delays[..|delays| - 1]);
      ScheduleTicks(front, s.time + delays[|delays| - 1], to, KMessage, Some(self), Some(s.time), Data(body));
    }
  }

  lemma EffectTicks<S(!new), P(!new)>(m: Module<S, P>, s: Sim<S, P>, self: NodeId, f: Effect<P>)
    requires Calm(m) && Ticking(s) && (f.SetTimer? ==> f.delay >= 0)
    ensures Ticking(ApplyEffect(m, s, self, f))
  {
    match f {
      case SetTimer(delay, body) => { ScheduleTicks(s, s.time + delay, self, KTimer, None, None, Data(body)); }
      case Send(to, body) => {
        var plan := Plan(m, s.net, self, to, s.rng);
        PlanLater(m, s.net, self, to, s.rng);
        DeliveriesTick(s.(rng := plan.1), self, to, body, plan.0);
      }
    }
  }

  lemma {:induction false} EffectsTick<S(!new), P(!new)>(m: Module<S, P>, s: Sim<S, P>, self: NodeId, fx: seq<Effect<P>>)
    requires Calm(m) && Ticking(s) && forall i :: 0 <= i < |fx| && fx[i].SetTimer? ==> fx[i].delay >= 0
    ensures Ticking(ApplyEffects(m, s, self, fx))
  {
    if fx != [] {
      EffectsTick(m, s, self, fx[..|fx| - 1]);
      EffectTicks(m, ApplyEffects(m, s, self, fx[..|fx| - 1]), self, fx[|fx| - 1]);
    }
  }

  lemma TakenTicks<S, P>(s: Sim<S, P>)
    requires Ticking(s) && s.heap != []
    ensures Ticking(Taken(s)) && s.time <= Taken(s).time
  {
    var t := Taken(s);
    PopOk(s.heap);
    forall i | 0 <= i < |t.heap| ensures EventOk(t.heap[i], t.time, t.tag) {
      HeapFrom(t.heap, multiset(s.heap), i);
      assert t.heap[i] in s.heap && !Before(t.heap[i], s.heap[0]);
    }
  }

  lemma DeliverTicks<S(!new), P(!new)>(m: Module<S, P>, s: Sim<S, P>, e: Event<Payload<P>>)
    requires Calm(m) && Ticking(s)
    ensures Ticking(Deliver(m, s, e)) && Deliver(m, s, e).time == s.time
  {
    var state := if e.target in s.states then Some(s.states[e.target]) else None;
    var r := m.reduce(state, ModuleEvent(e.kind, e.target, e.from, e.time, e.payload), s.rng);
    var t := s.(states := s.states[e.target := r.0], rng := r.2);
    assert Ticking(t);
    EffectsTick(m, t, e.target, r.1);
    EffectsKeep(m, t, e.target, r.1);
  }

  lemma ControlTicks<S, P>(s: Sim<S, P>, a: Action)
    requires Ticking(s) && ChangeOk<P>(Control(a))
    ensures Ticking(ApplyControl(s, a)) && ApplyControl(s, a).time == s.time
  {
  }

  lemma StepTicks<S(!new), P(!new)>(m: Module<S, P>, s: Sim<S, P>)
    requires Calm(m) && Ticking(s)
    ensures Ticking(Step(m, s)) && s.time <= Step(m, s).time
  {
    if s.heap != [] {
      var e, t := s.heap[0], Taken(s);
      assert EventOk(e, s.time, s.tag);
      TakenTicks(s);
      if e.kind == KControl {
        if e.payload.Control? { ControlTicks(t, e.payload.action); }
      } else if LogEntry(s, e).delivered {
        DeliverTicks(m, t, e);
      }
    }
  }

  lemma AlwaysTicks<S(!new), P(!new)>(m: Module<S, P>, s: Sim<S, P>, n: nat)
    requires Calm(m) && Ticking(s)
    ensures Ticking(StepN(m, s, n)) && s.time <= StepN(m, s, n).time
  {
    forall t: Sim<S, P> | Ticking(t) && s.time <= t.time ensures Ticking(Step(m, t)) && s.time <= Step(m, t).time {
      StepTicks(m, t);
    }
    IterateKeeps((t: Sim<S, P>) => Step(m, t), (t: Sim<S, P>) => Ticking(t) && s.time <= t.time, s, n);
  }

  lemma EndsLater<S(!new), P(!new)>(m: Module<S, P>, s: Sim<S, P>, a: nat, mid: Sim<S, P>, n: nat, end: Sim<S, P>)
    requires Calm(m) && Ticking(s) && mid == StepN(m, s, a) && end == StepN(m, mid, n)
    ensures mid.time <= end.time
  {
    AlwaysTicks(m, s, a);
    AlwaysTicks(m, mid, n);
  }

  /** With delays that are never negative the virtual clock never goes backwards. */
  lemma ClockForward<S(!new), P(!new)>(m: Module<S, P>, s: Sim<S, P>, a: nat, b: nat)
    requires Calm(m) && Ticking(s) && a <= b
    ensures StepN(m, s, a).time <= StepN(m, s, b).time
  {
    StepNAdds(m, s, a, b - a);
    EndsLater(m, s, a, StepN(m, s, a), b - a, StepN(m, s, b));
  }

  // ---------- tags ----------

  ghost predicate DistinctBag<P>(b: multiset<Event<P>>) {
    (forall e :: e in b ==> b[e] == 1) && (forall e, f :: e in b && f in b && e.tag == f.tag ==> e == f)
  }

  lemma TwoOccur<T>(h: seq<T>, i: nat, j: nat)
    requires i < j < |h| && h[i] == h[j]
    ensures multiset(h)[h[i]] >= 2
  {
    assert h == h[..j] + [h[j]] + h[j + 1..];
    assert h[i] in h[..j];
  }

  lemma BagTags<P>(h: seq<Event<P>>)
    requires DistinctBag(multiset(h))
    ensures DistinctTags(h)
  {
    forall i, j | 0 <= i < j < |h| ensures h[i].tag != h[j].tag {
      assert h[i] in multiset(h) && h[j] in multiset(h);
      if h[i] == h[j] { TwoOccur(h, i, j); }
    }
  }

  /** Tags are pairwise distinct and already used. */
  ghost predicate FreshTags<S, P>(s: Sim<S, P>) {
    HeapOk(s.heap) && DistinctBag(multiset(s.heap)) && forall e :: e in multiset(s.heap) ==> e.tag < s.tag
  }

  lemma ScheduleFresh<S, P>(s: Sim<S, P>, time: int, target: NodeId, kind: Kind, from: Option<NodeId>,
                            sentAt: Option<int>, payload: Payload<P>)
    requires FreshTags(s)
    ensures FreshTags(Schedule(s, time, target, kind, from, sentAt, payload))
  {
    PushOk(s.heap, Event(time, s.tag, target, kind, from, sentAt, payload));
  }

  lemma {:induction false} DeliveriesFresh<S, P>(s: Sim<S, P>, self: NodeId, to: NodeId, body: P, delays: seq<int>)
    requires FreshTags(s)
    ensures FreshTags(Deliveries(s, self, to, body, delays))
  {
    if delays != [] {
      var front := Deliveries(s, self, to, body, delays[..|delays| - 1]);
      DeliveriesFresh(s, self, to, body, delays[..|delays| - 1]);
      ScheduleFresh(front, s.time + delays[|delays| - 1], to, KMessage, Some(self), Some(s.time), Data(body));
    }
  }

  lemma {:induction false} EffectsFresh<S, P>(m: Module<S, P>, s: Sim<S, P>, self: NodeId, fx: seq<Effect<P>>)
    requires FreshTags(s)
    ensures FreshTags(ApplyEffects(m, s, self, fx))
  {
    if fx != [] {
      EffectsFresh(m, s, self, fx[..|fx| - 1]);
      var t := ApplyEffects(m, s, self, fx[..|fx| - 1]);
      match fx[|fx| - 1] {
        case SetTimer(delay, body) => { ScheduleFresh(t, t.time + delay, self, KTimer, None, None, Data(body)); }
        case Send(to, body) => {
          var plan := Plan(m, t.net, self, to, t.rng);
          DeliveriesFresh(t.(rng := plan.1), self, to, body, plan.0);
        }
      }
    }
  }

  lemma TakenFresh<S, P>(s: Sim<S, P>)
    requires FreshTags(s) && s.heap != []
    ensures FreshTags(Taken(s))
  {
    PopOk(s.heap);
    var bag := multiset(s.heap);
    assert multiset(Taken(s).heap) == bag - multiset{s.heap[0]};
    forall e | e in bag - multiset{s.heap[0]} ensures e in bag && (bag - multiset{s.heap[0]})[e] == 1 {}
  }

  lemma DeliverFresh<S, P>(m: Module<S, P>, s: Sim<S, P>, e: Event<Payload<P>>)
    requires FreshTags(s)
    ensures FreshTags(Deliver(m, s, e))
  {
    var state := if e.target in s.states then Some(s.states[e.target]) else None;
    var r := m.reduce(state, ModuleEvent(e.kind, e.target, e.from, e.time, e.payload), s.rng);
    EffectsFresh(m, s.(states := s.states[e.target := r.0], rng := r.2), e.target, r.1);
  }

  lemma ControlFresh<S, P>(s: Sim<S, P>, a: Action)
    requires FreshTags(s)
    ensures FreshTags(ApplyControl(s, a))
  {
  }

  lemma StepFresh<S, P>(m: Module<S, P>, s: Sim<S, P>)
    requires FreshTags(s)
    ensures FreshTags(Step(m, s))
  {
    if s.heap != [] {
      var e, t := s.heap[0], Taken(s);
      TakenFresh(s);
      if e.kind == KControl {
        if e.payload.Control? { ControlFresh(t, e.payload.action); }
      } else if LogEntry(s, e).delivered {
        DeliverFresh(m, t, e);
      }
    }
  }

  lemma AlwaysFresh<S(!new), P(!new)>(m: Module<S, P>, s: Sim<S, P>, n: nat)
    requires FreshTags(s)
    ensures FreshTags(StepN(m, s, n))
  {
    forall t: Sim<S, P> | FreshTags(t) ensures FreshTags(Step(m, t)) { StepFresh(m, t); }
    IterateKeeps((t: Sim<S, P>) => Step(m, t), (t: Sim<S, P>) => FreshTags(t), s, n);
  }

  lemma FirstOf<S, P>(t: Sim<S, P>, i: nat)
    requires FreshTags(t) && 0 < i < |t.heap|
    ensures Before(t.heap[0], t.heap[i])
  {
    RootLeast(t.heap, i);
    BagTags(t.heap);
  }

  /** At every point of a run the next event is strictly first in (time, tag) order: ties cannot happen. */
  lemma StrictlyFirst<S(!new), P(!new)>(m: Module<S, P>, s: Sim<S, P>, n: nat, i: nat)
    requires FreshTags(s) && 0 < i < |StepN(m, s, n).heap|
    ensures var a, b := StepN(m, s, n).heap[0], StepN(m, s, n).heap[i]; a.time < b.time || (a.time == b.time && a.tag < b.tag)
  {
    AlwaysFresh(m, s, n);
    FirstOf(StepN(m, s, n), i);
  }

  // ---------- the beginning ----------

  function Boot<S, P>(m: Module<S, P>, seed: nat, opts: NetOptions): Sim<S, P> {
    Sim(0, 0, 0, seed, [], map[], {}, Net(opts, None), [])
  }

  /** Each node in turn is initialised and gets an init event. */
  function InitAll<S, P>(m: Module<S, P>, s: Sim<S, P>, nodes: seq<NodeId>): Sim<S, P> {
    if nodes == [] then s
    else
      var t, n := InitAll(m, s, nodes[..|nodes| - 1]), nodes[|nodes| - 1];
      var r := m.init(n, t.rng);
      Schedule(t.(states := t.states[n := r.0], rng := r.1), 0, n, KInit, None, None, Nil)
  }

  lemma {:induction false} BootReady<S, P>(m: Module<S, P>, seed: nat, opts: NetOptions, nodes: seq<NodeId>)
    ensures FreshTags(InitAll(m, Boot(m, seed, opts), nodes)) && InitAll(m, Boot(m, seed, opts), nodes).time == 0
    ensures InitAll(m, Boot(m, seed, opts), nodes).net == Net(opts, None)
    ensures LatencyOk(opts) ==> Ticking(InitAll(m, Boot(m, seed, opts), nodes))
  {
    if nodes != [] {
      var n := nodes[|nodes| - 1];
      BootReady(m, seed, opts, nodes[..|nodes| - 1]);
      var t := InitAll(m, Boot(m, seed, opts), nodes[..|nodes| - 1]);
      var r := m.init(n, t.rng);
      var u := t.(states := t.states[n := r.0], rng := r.1);
      ScheduleFresh(u, 0, n, KInit, None, None, Nil);
      if LatencyOk(opts) { ScheduleTicks(u, 0, n, KInit, None, None, Nil); }
    }
  }
}
