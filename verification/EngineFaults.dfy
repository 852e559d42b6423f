/** What partitions and dead nodes do: who reaches whom, what a step delivers, and what a run keeps from anyone. */
module EngineFaults {
  import opened EngineQueue
  import opened EngineSim

  // ---------- who reaches whom ----------

  predicate Listed(groups: seq<seq<NodeId>>, n: NodeId) {
    exists i :: 0 <= i < |groups| && n in groups[i]
  }

  predicate Together(groups: seq<seq<NodeId>>, x: NodeId, y: NodeId) {
    exists i :: 0 <= i < |groups| && x in groups[i] && y in groups[i]
  }

  /** Both are in groups, and in no group both. */
  predicate Separated(groups: seq<seq<NodeId>>, x: NodeId, y: NodeId) {
    Listed(groups, x) && Listed(groups, y) && !Together(groups, x, y)
  }

  ghost predicate Disjoint(groups: seq<seq<NodeId>>) {
    forall i, j, n :: 0 <= i < j < |groups| && n in groups[i] ==> n !in groups[j]
  }

  /** The group found is the first that lists the node. */
  lemma {:induction false} GroupIs(groups: seq<seq<NodeId>>, n: NodeId)
    ensures GroupOf(groups, n).None? <==> !Listed(groups, n)
    ensures GroupOf(groups, n).Some? ==> exists i :: 0 <= i < |groups| && n in groups[i] && GroupOf(groups, n).value == groups[i]
  {
    if groups != [] {
      GroupIs(groups[1..], n);
      assert forall i :: 0 < i < |groups| ==> groups[i] == groups[1..][i - 1];
      if n !in groups[0] {
        if Listed(groups, n) {
          var i :| 0 <= i < |groups| && n in groups[i];
          assert n in groups[1..][i - 1];
        }
        if Listed(groups[1..], n) {
          var i :| 0 <= i < |groups[1..]| && n in groups[1..][i] && GroupOf(groups[1..], n).value == groups[1..][i];
          assert groups[i + 1] == groups[1..][i];
        }
      }
    }
  }

  /** Between disjoint groups, two nodes reach each other unless they are in different ones. */
  lemma ReachIff(net: Net, x: NodeId, y: NodeId)
    requires net.groups.Some? ==> Disjoint(net.groups.value)
    ensures CanReach(net, x, y) <==> net.groups.None? || !Separated(net.groups.value, x, y)
  {
    if net.groups.Some? {
      var groups := net.groups.value;
      GroupIs(groups, x);
      GroupIs(groups, y);
      if GroupOf(groups, x).Some? && Together(groups, x, y) {
        var i :| 0 <= i < |groups| && x in groups[i] && GroupOf(groups, x).value == groups[i];
        var j :| 0 <= j < |groups| && x in groups[j] && y in groups[j];
        assert i == j;
      }
    }
  }

  /** A message to a node in another group is not even planned, and costs no draw. */
  lemma PlanIff<S, P>(m: Module<S, P>, net: Net, x: NodeId, y: NodeId, rng: nat)
    requires net.groups.Some? ==> Disjoint(net.groups.value)
    ensures net.groups.Some? && Separated(net.groups.value, x, y) ==> Plan(m, net, x, y, rng) == ([], rng)
    ensures !(net.groups.Some? && Separated(net.groups.value, x, y)) ==>
      |Plan(m, net, x, y, rng).0| ==
        if m.draw(rng).0 < net.opts.dropRate then 0
        else if m.draw(DrawInt(m, m.draw(rng).1, net.opts.latMin, net.opts.latMax).1).0 < net.opts.duplicateRate then 2 else 1
  {
    ReachIff(net, x, y);
  }

  /** Every planned copy takes a time from the range of latencies. */
  lemma PlanInRange<S, P>(m: Module<S, P>, net: Net, x: NodeId, y: NodeId, rng: nat)
    requires (forall r :: 0.0 <= m.draw(r).0 < 1.0) && net.opts.latMin <= net.opts.latMax
    ensures forall i :: 0 <= i < |Plan(m, net, x, y, rng).0| ==> net.opts.latMin <= Plan(m, net, x, y, rng).0[i] <= net.opts.latMax
  {
    forall r ensures net.opts.latMin <= DrawInt(m, r, net.opts.latMin, net.opts.latMax).0 <= net.opts.latMax {
      DrawInRange(m.draw(r).0, net.opts.latMax + 1 - net.opts.latMin);
    }
  }

  lemma DrawInRange(d: real, n: int)
    requires 0.0 <= d < 1.0 && n > 0
    ensures 0 <= (d * (n as real)).Floor < n
  {
    assert d * (n as real) < n as real;
  }

  /** The events that the copies of a message become. */
  function Copies<P>(time: int, tag: nat, self: NodeId, to: NodeId, body: P, delays: seq<int>): seq<Event<Payload<P>>> {
    if delays == [] then []
    else
      var n := |delays| - 1;
      Copies(time, tag, self, to, body, delays[..n]) + [CopyAt(time, tag, self, to, body, delays, n)]
  }

  function CopyAt<P>(time: int, tag: nat, self: NodeId, to: NodeId, body: P, delays: seq<int>, i: nat): Event<Payload<P>>
    requires i < |delays|
  {
    Event(time + delays[i], tag + i, to, KMessage, Some(self), Some(time), Data(body))
  }

  lemma CopiesMore<P>(time: int, tag: nat, self: NodeId, to: NodeId, body: P, delays: seq<int>)
    requires delays != []
    ensures var n := |delays| - 1;
      multiset(Copies(time, tag, self, to, body, delays))
        == multiset(Copies(time, tag, self, to, body, delays[..n])) + multiset{CopyAt(time, tag, self, to, body, delays, n)}
  {
  }

  /** The queue holds exactly the events more. */
  ghost predicate Holds<P>(was: seq<Event<P>>, heap: seq<Event<P>>, more: seq<Event<P>>) {
    HeapOk(heap) && multiset(heap) == multiset(was) + multiset(more)
  }

  lemma HoldsMore<P>(was: seq<Event<P>>, heap: seq<Event<P>>, front: seq<Event<P>>, e: Event<P>, more: seq<Event<P>>)
    requires Holds(was, heap, front) && multiset(more) == multiset(front) + multiset{e}
    ensures Holds(was, PushTo(heap, e), more)
  {
    PushOk(heap, e);
  }

  /** What queueing some copies leaves. */
  ghost predicate Sent<S, P>(s: Sim<S, P>, r: Sim<S, P>, copies: seq<Event<Payload<P>>>, n: nat) {
    Holds(s.heap, r.heap, copies) && r.tag == s.tag + n && r.time == s.time
  }

  lemma ScheduleSends<S, P>(s: Sim<S, P>, r: Sim<S, P>, q: Sim<S, P>, self: NodeId, to: NodeId, body: P, delays: seq<int>,
                            front: seq<Event<Payload<P>>>, copies: seq<Event<Payload<P>>>)
    requires delays != [] && Sent(s, r, front, |delays| - 1)
    requires q == Schedule(r, s.time + delays[|delays| - 1], to, KMessage, Some(self), Some(s.time), Data(body))
    requires multiset(copies) == multiset(front) + multiset{CopyAt(s.time, s.tag, self, to, body, delays, |delays| - 1)}
    ensures Sent(s, q, copies, |delays|)
  {
    HoldsMore(s.heap, r.heap, front, CopyAt(s.time, s.tag, self, to, body, delays, |delays| - 1), copies);
  }

  /** Sending queues exactly one event a copy, for its target, from its sender, after its delay. */
  lemma {:induction false} DeliveriesQueue<S, P>(s: Sim<S, P>, self: NodeId, to: NodeId, body: P, delays: seq<int>)
    requires HeapOk(s.heap)
    ensures Sent(s, Deliveries(s, self, to, body, delays), Copies(s.time, s.tag, self, to, body, delays), |delays|)
  {
    if delays == [] {
      assert multiset(Copies(s.time, s.tag, self, to, body, delays)) == multiset{};
    } else {
      var front := delays[..|delays| - 1];
      DeliveriesQueue(s, self, to, body, front);
      CopiesMore(s.time, s.tag, self, to, body, delays);
      ScheduleSends(s, Deliveries(s, self, to, body, front), Deliveries(s, self, to, body, delays), self, to, body, delays,
                    Copies(s.time, s.tag, self, to, body, front), Copies(s.time, s.tag, self, to, body, delays));
    }
  }

  /** One timer for the node itself, or the planned copies of its message. */
  function Queued<S, P>(m: Module<S, P>, s: Sim<S, P>, self: NodeId, f: Effect<P>): seq<Event<Payload<P>>> {
    match f
    case SetTimer(delay, body) => [Event(s.time + delay, s.tag, self, KTimer, None, None, Data(body))]
    case Send(to, body) => Copies(s.time, s.tag, self, to, body, Plan(m, s.net, self, to, s.rng).0)
  }

  /** An effect queues exactly what it says. */
  lemma EffectQueues<S, P>(m: Module<S, P>, s: Sim<S, P>, self: NodeId, f: Effect<P>)
    requires HeapOk(s.heap)
    ensures var r := ApplyEffect(m, s, self, f);
      && HeapOk(r.heap)
      && multiset(r.heap) == multiset(s.heap) + multiset(Queued(m, s, self, f))
  {
    if f.SetTimer? {
      PushOk(s.heap, Event(s.time + f.delay, s.tag, self, KTimer, None, None, Data(f.body)));
    } else {
      var plan := Plan(m, s.net, self, f.to, s.rng);
      DeliveriesQueue(s.(rng := plan.1), self, f.to, f.body, plan.0);
    }
  }

  // ---------- one step ----------

  /** The first event is a message that a partition keeps from its target. */
  predicate CutOff<S, P>(s: Sim<S, P>, e: Event<Payload<P>>) {
    e.kind == KMessage && e.from.Some? && s.net.groups.Some? && Separated(s.net.groups.value, e.from.value, e.target)
  }

  /** The queue without its first event, and the rest as it was but for the clock and the log. */
  ghost predicate OnlyLogs<S, P>(s: Sim<S, P>, r: Sim<S, P>, e: Event<Payload<P>>, delivered: bool, why: Option<DropReason>)
    requires s.heap != []
  {
    r == s.(heap := PopFrom(s.heap), time := e.time, processed := s.processed + 1,
            eventLog := s.eventLog + [Logged(s.processed, e.time, e.target, e.kind, e.from, e.payload, delivered, why)])
  }

  /** Nothing reaches a dead node, nor a node across a partition: the event is logged as not delivered, with the
      reason, and nothing else happens. */
  lemma NotDelivered<S, P>(m: Module<S, P>, s: Sim<S, P>)
    requires s.heap != [] && s.heap[0].kind != KControl && (s.net.groups.Some? ==> Disjoint(s.net.groups.value))
    ensures var e := s.heap[0];
      && (e.target in s.dead ==> OnlyLogs(s, Step(m, s), e, false, Some(DeadNode)))
      && (e.target !in s.dead && CutOff(s, e) ==> OnlyLogs(s, Step(m, s), e, false, Some(Cut)))
  {
    var e := s.heap[0];
    if e.from.Some? { ReachIff(s.net, e.from.value, e.target); }
  }

  lemma {:induction false} DeliveriesFrame<S, P>(s: Sim<S, P>, self: NodeId, to: NodeId, body: P, delays: seq<int>)
    ensures var r := Deliveries(s, self, to, body, delays); r == s.(heap := r.heap, tag := r.tag)
  {
    if delays != [] { DeliveriesFrame(s, self, to, body, delays[..|delays| - 1]); }
  }

  /** Effects only queue events and draw fates. */
  lemma {:induction false} EffectsFrame<S, P>(m: Module<S, P>, s: Sim<S, P>, self: NodeId, fx: seq<Effect<P>>)
    ensures var r := ApplyEffects(m, s, self, fx); r == s.(heap := r.heap, tag := r.tag, rng := r.rng)
  {
    if fx != [] {
      var front, f := ApplyEffects(m, s, self, fx[..|fx| - 1]), fx[|fx| - 1];
      EffectsFrame(m, s, self, fx[..|fx| - 1]);
      if f.Send? {
        var plan := Plan(m, front.net, self, f.to, front.rng);
        DeliveriesFrame(front.(rng := plan.1), self, f.to, f.body, plan.0);
      }
    }
  }

  /** Everything else is delivered: the target's state becomes what its reducer makes of the event, and no other
      state, nor who is dead, nor the network changes. */
  lemma Delivered<S, P>(m: Module<S, P>, s: Sim<S, P>)
    requires s.heap != [] && s.heap[0].kind != KControl && (s.net.groups.Some? ==> Disjoint(s.net.groups.value))
    requires s.heap[0].target !in s.dead && !CutOff(s, s.heap[0])
    ensures var e, r := s.heap[0], Step(m, s);
      var state := if e.target in s.states then Some(s.states[e.target]) else None;
      && r.states == s.states[e.target := m.reduce(state, ModuleEvent(e.kind, e.target, e.from, e.time, e.payload), s.rng).0]
      && r.dead == s.dead && r.net == s.net && r.time == e.time
      && r.eventLog == s.eventLog + [Logged(s.processed, e.time, e.target, e.kind, e.from, e.payload, true, None)]
  {
    var e := s.heap[0];
    if e.from.Some? { ReachIff(s.net, e.from.value, e.target); }
    DeliverFrame(m, s, e);
  }

  lemma DeliverFrame<S, P>(m: Module<S, P>, s: Sim<S, P>, e: Event<Payload<P>>)
    requires s.heap != [] && e == s.heap[0]
    ensures var r, t := Deliver(m, Taken(s), e), Taken(s);
      var state := if e.target in s.states then Some(s.states[e.target]) else None;
      && r.states == s.states[e.target := m.reduce(state, ModuleEvent(e.kind, e.target, e.from, e.time, e.payload), s.rng).0]
      && r.dead == s.dead && r.net == s.net && r.time == e.time && r.eventLog == t.eventLog
  {
    var t := Taken(s);
    var state := if e.target in s.states then Some(s.states[e.target]) else None;
    var r := m.reduce(state, ModuleEvent(e.kind, e.target, e.from, e.time, e.payload), s.rng);
    EffectsFrame(m, t.(states := t.states[e.target := r.0], rng := r.2), e.target, r.1);
  }

  /** What a step obeys, if its event is a command. */
  function Command<S, P>(s: Sim<S, P>): Option<Action> {
    if s.heap != [] && s.heap[0].kind == KControl && s.heap[0].payload.Control? then Some(s.heap[0].payload.action) else None
  }

  /** A step changes who is dead, and the network, by its command alone. */
  lemma StepFaults<S, P>(m: Module<S, P>, s: Sim<S, P>)
    ensures var r, c := Step(m, s), Command(s);
      && (c.None? ==> r.dead == s.dead && r.net == s.net)
      && (c.Some? ==>
            && r.states == s.states && r.rng == s.rng
            && r.dead == (if c.value.Kill? then s.dead + {c.value.node} else if c.value.Revive? then s.dead - {c.value.node} else s.dead)
            && r.net.groups == (if c.value.Partition? then Some(c.value.groups) else if c.value.Heal? then None else s.net.groups))
  {
    if s.heap != [] { DeliverFrame(m, s, s.heap[0]); }
  }

  /** The state of a node, if it has one. */
  function StateOf<S, P>(s: Sim<S, P>, n: NodeId): Option<S> {
    if n in s.states then Some(s.states[n]) else None
  }

  lemma StepDead<S, P>(m: Module<S, P>, s: Sim<S, P>, n: NodeId)
    requires n in s.dead
    ensures StateOf(Step(m, s), n) == StateOf(s, n)
    ensures Command(s) != Some(Revive(n)) ==> n in Step(m, s).dead
  {
    StepFaults(m, s);
    if s.heap != [] { DeliverFrame(m, s, s.heap[0]); }
  }

  // ---------- runs ----------

  /** Step k of the run obeys a command. */
  ghost predicate Obeys<S, P>(m: Module<S, P>, s: Sim<S, P>, k: nat, a: Action) {
    Command(StepN(m, s, k)) == Some(a)
  }

  lemma Killed<S, P>(m: Module<S, P>, s: Sim<S, P>, n: NodeId, k: nat)
    requires Obeys(m, s, k, Kill(n))
    ensures n in StepN(m, s, k + 1).dead && StateOf(StepN(m, s, k + 1), n) == StateOf(StepN(m, s, k), n)
  {
    StepNext(m, s, k);
    StepFaults(m, StepN(m, s, k));
  }

  lemma KilledNext<S, P>(m: Module<S, P>, s: Sim<S, P>, n: NodeId, k: nat)
    requires n in StepN(m, s, k).dead && !Obeys(m, s, k, Revive(n))
    ensures n in StepN(m, s, k + 1).dead && StateOf(StepN(m, s, k + 1), n) == StateOf(StepN(m, s, k), n)
  {
    StepNext(m, s, k);
    StepDead(m, StepN(m, s, k), n);
  }

  /** From the step that kills a node until one that revives it, it stays dead and its state does not change. */
  lemma {:induction false} KilledStays<S, P>(m: Module<S, P>, s: Sim<S, P>, n: NodeId, a: nat, b: nat)
    requires a < b && Obeys(m, s, a, Kill(n)) && forall k :: a < k < b ==> !Obeys(m, s, k, Revive(n))
    ensures n in StepN(m, s, b).dead && StateOf(StepN(m, s, b), n) == StateOf(StepN(m, s, a), n)
  {
    if b - 1 > a {
      KilledStays(m, s, n, a, b - 1);
      KilledNext(m, s, n, b - 1);
    } else {
      Killed(m, s, n, a);
    }
  }

  /** So meanwhile no event for it is delivered. */
  lemma KilledHearsNothing<S, P>(m: Module<S, P>, s: Sim<S, P>, n: NodeId, a: nat, b: nat)
    requires a < b && Obeys(m, s, a, Kill(n)) && forall k :: a < k < b ==> !Obeys(m, s, k, Revive(n))
    requires var t := StepN(m, s, b); t.heap != [] && t.heap[0].kind != KControl && t.heap[0].target == n
    ensures var t := StepN(m, s, b); LogEntry(t, t.heap[0]).dropReason == Some(DeadNode) && !LogEntry(t, t.heap[0]).delivered
    ensures StepN(m, s, b + 1).eventLog == StepN(m, s, b).eventLog + [LogEntry(StepN(m, s, b), StepN(m, s, b).heap[0])]
  {
    KilledStays(m, s, n, a, b);
    StepNext(m, s, b);
    StepLogs(m, StepN(m, s, b));
  }

  /** Step k of the run heals the network or partitions it. */
  ghost predicate Rewires<S, P>(m: Module<S, P>, s: Sim<S, P>, k: nat) {
    var c := Command(StepN(m, s, k)); c.Some? && (c.value.Heal? || c.value.Partition?)
  }

  ghost predicate Split<S, P>(m: Module<S, P>, s: Sim<S, P>, groups: seq<seq<NodeId>>, k: nat) {
    StepN(m, s, k).net.groups == Some(groups)
  }

  lemma Partitioned<S, P>(m: Module<S, P>, s: Sim<S, P>, groups: seq<seq<NodeId>>, k: nat)
    requires Obeys(m, s, k, Partition(groups))
    ensures Split(m, s, groups, k + 1)
  {
    StepNext(m, s, k);
    StepFaults(m, StepN(m, s, k));
  }

  lemma PartitionNext<S, P>(m: Module<S, P>, s: Sim<S, P>, groups: seq<seq<NodeId>>, k: nat)
    requires Split(m, s, groups, k) && !Rewires(m, s, k)
    ensures Split(m, s, groups, k + 1)
  {
    StepNext(m, s, k);
    StepFaults(m, StepN(m, s, k));
  }

  lemma {:induction false} SplitStays<S, P>(m: Module<S, P>, s: Sim<S, P>, groups: seq<seq<NodeId>>, a: nat, b: nat)
    requires a < b && Split(m, s, groups, a + 1) && forall k :: a < k < b ==> !Rewires(m, s, k)
    ensures Split(m, s, groups, b)
  {
    if a + 1 < b {
      SplitStays(m, s, groups, a, b - 1);
      PartitionNext(m, s, groups, b - 1);
    }
  }

  /** From the step that partitions the network until one that heals or partitions it anew, it is so partitioned. */
  lemma PartitionStays<S, P>(m: Module<S, P>, s: Sim<S, P>, groups: seq<seq<NodeId>>, a: nat, b: nat)
    requires a < b && Obeys(m, s, a, Partition(groups)) && forall k :: a < k < b ==> !Rewires(m, s, k)
    ensures StepN(m, s, b).net.groups == Some(groups)
  {
    Partitioned(m, s, groups, a);
    SplitStays(m, s, groups, a, b);
    assert Split(m, s, groups, b);
  }

  /** Meanwhile a message is delivered if and only if its target is alive and not in another group. */
  lemma PartitionSeparates<S, P>(m: Module<S, P>, s: Sim<S, P>, groups: seq<seq<NodeId>>, a: nat, b: nat)
    requires a < b && Obeys(m, s, a, Partition(groups)) && Disjoint(groups)
    requires forall k :: a < k < b ==> !Rewires(m, s, k)
    requires var t := StepN(m, s, b); t.heap != [] && t.heap[0].kind == KMessage && t.heap[0].from.Some?
    ensures var t := StepN(m, s, b); var e := t.heap[0];
      && StepN(m, s, b + 1).eventLog == t.eventLog + [LogEntry(t, e)]
      && (LogEntry(t, e).delivered <==> e.target !in t.dead && !Separated(groups, e.from.value, e.target))
  {
    var t := StepN(m, s, b);
    PartitionStays(m, s, groups, a, b);
    ReachIff(t.net, t.heap[0].from.value, t.heap[0].target);
    StepNext(m, s, b);
    StepLogs(m, t);
  }
}
