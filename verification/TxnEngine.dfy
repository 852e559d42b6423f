/** The transaction engine: version chains, four isolation levels, and the queue of the serial one. */
module TxnEngine {
  datatype Option<+T> = None | Some(value: T)

  datatype Level = RU | RC | SI | SER
  datatype TxnId = T1 | T2

  /** An increment adds to the value the transaction last read for the key. */
  datatype WriteValue = Set(n: int) | Inc(inc: int)

  datatype Op =
    | Begin
    | Read(key: string)
    | Write(key: string, value: WriteValue)
    | Ensure(keys: seq<string>, atLeast: int)
    | Commit
    | Abort

  datatype Step = Step(txn: TxnId, op: Op)

  /** Seeds have no writer; an uncommitted version has no stamp. */
  datatype Version = Version(value: int, txn: Option<TxnId>, committedAt: Option<nat>)
  datatype ReadRecord = ReadRecord(key: string, value: int, stamp: Option<nat>, from: Option<TxnId>)
  datatype Status = Idle | Active | Waiting | Committed | Aborted
  datatype Reason = EnsureFailed(keys: seq<string>, sum: int, atLeast: int) | WriteConflict(key: string) | RolledBack

  datatype TxnInfo = TxnInfo(
    status: Status, beganAt: Option<nat>, endedAt: Option<nat>, snapshotAt: Option<nat>,
    readLog: seq<ReadRecord>, writes: seq<string>, abortReason: Option<Reason>)

  datatype Anomaly =
    | DirtyRead(who: TxnId, version: Version, key: string, at: nat)
    | LostUpdate(who: TxnId, key: string, at: nat)
    | WriteSkew(who: TxnId, other: TxnId, at: nat)

  /** The version chains by key, in the order the keys were first written. */
  datatype Slot = Slot(key: string, versions: seq<Version>)
  type Store = seq<Slot>

  datatype Node = Node(
    level: Level, store: Store, t1: TxnInfo, t2: TxnInfo, queue: seq<Step>, activeSer: Option<TxnId>,
    anomalies: seq<Anomaly>, commits: nat, aborts: nat, queuedOps: nat, skippedOps: nat, clock: nat)

  const FRESH: TxnInfo := TxnInfo(Idle, None, None, None, [], [], None)

  function Seeds(initial: seq<(string, int)>): Store {
    if initial == [] then []
    else
      var last := initial[|initial| - 1];
      PutChain(Seeds(initial[..|initial| - 1]), last.0, [Version(last.1, None, Some(0))])
  }

  function Init(level: Level, initial: seq<(string, int)>): Node {
    Node(level, Seeds(initial), FRESH, FRESH, [], None, [], 0, 0, 0, 0, 0)
  }

  function Info(s: Node, x: TxnId): TxnInfo { if x == T1 then s.t1 else s.t2 }

  function WithInfo(s: Node, x: TxnId, i: TxnInfo): (r: Node)
    ensures Info(r, x) == i && Info(r, Other(x)) == Info(s, Other(x))
  {
    if x == T1 then s.(t1 := i) else s.(t2 := i)
  }

  function Other(x: TxnId): TxnId { if x == T1 then T2 else T1 }

  predicate Done(s: Node, x: TxnId) { Info(s, x).status in {Committed, Aborted} }

  function Chain(store: Store, key: string): seq<Version> {
    if store == [] then [] else if store[0].key == key then store[0].versions else Chain(store[1..], key)
  }

  function PutChain(store: Store, key: string, c: seq<Version>): Store {
    if store == [] then [Slot(key, c)]
    else if store[0].key == key then [Slot(key, c)] + store[1..]
    else [store[0]] + PutChain(store[1..], key, c)
  }

  lemma {:induction false} ChainPut(store: Store, key: string, c: seq<Version>, k: string)
    ensures Chain(PutChain(store, key, c), k) == if k == key then c else Chain(store, k)
  {
    if store != [] { ChainPut(store[1..], key, c, k); }
  }

  // ---------- reads ----------

  predicate Visible(level: Level, snap: Option<nat>, reader: TxnId, v: Version) {
    || (v.txn == Some(reader) && v.committedAt == None)
    || level == RU
    || (v.committedAt.Some? && (level == SI && snap.Some? ==> v.committedAt.value <= snap.value))
  }

  /** The newest version of a chain that the level lets the reader see. */
  function Pick(level: Level, snap: Option<nat>, reader: TxnId, chain: seq<Version>): Option<Version> {
    if chain == [] then None
    else if Visible(level, snap, reader, chain[|chain| - 1]) then Some(chain[|chain| - 1])
    else Pick(level, snap, reader, chain[..|chain| - 1])
  }

  function PickVersion(s: Node, reader: TxnId, key: string): Option<Version> {
    Pick(s.level, Info(s, reader).snapshotAt, reader, Chain(s.store, key))
  }

  function Recorded(key: string, v: Option<Version>): ReadRecord {
    if v.Some? then ReadRecord(key, v.value.value, v.value.committedAt, v.value.txn) else ReadRecord(key, 0, None, None)
  }

  predicate Dirty(x: TxnId, v: Option<Version>) {
    v.Some? && v.value.committedAt == None && v.value.txn != Some(x)
  }

  function DoRead(s: Node, x: TxnId, key: string): Node {
    var v := PickVersion(s, x, key);
    var i := Info(s, x);
    var r := WithInfo(s, x, i.(readLog := i.readLog + [Recorded(key, v)]));
    if Dirty(x, v) then r.(anomalies := r.anomalies + [DirtyRead(x, v.value, key, s.clock)]) else r
  }

  /** The last read of a key, if any. */
  function LastRead(log: seq<ReadRecord>, key: string): Option<ReadRecord> {
    if log == [] then None
    else if log[|log| - 1].key == key then Some(log[|log| - 1])
    else LastRead(log[..|log| - 1], key)
  }

  // ---------- writes ----------

  function Append(s: Node, x: TxnId, key: string, n: int): Node {
    var i := Info(s, x);
    var writes := if key in i.writes then i.writes else i.writes + [key];
    WithInfo(s, x, i.(writes := writes)).(store := PutChain(s.store, key, Chain(s.store, key) + [Version(n, Some(x), None)]))
  }

  function DoWrite(s: Node, x: TxnId, key: string, value: WriteValue): Node {
    match value
    case Set(n) => Append(s, x, key, n)
    case Inc(n) =>
      var prior := LastRead(Info(s, x).readLog, key);
      if prior.Some? then Append(s, x, key, prior.value.value + n)
      else Append(DoRead(s, x, key), x, key, Recorded(key, PickVersion(s, x, key)).value + n)
  }

  // ---------- ends of transactions ----------

  predicate Own(x: TxnId, v: Version) { v.txn == Some(x) && v.committedAt == None }

  function Without(x: TxnId, chain: seq<Version>): seq<Version> {
    if chain == [] then []
    else Without(x, chain[..|chain| - 1]) + if Own(x, chain[|chain| - 1]) then [] else [chain[|chain| - 1]]
  }

  function Stamped(x: TxnId, chain: seq<Version>, clock: nat): seq<Version> {
    seq(|chain|, i requires 0 <= i < |chain| => if Own(x, chain[i]) then chain[i].(committedAt := Some(clock)) else chain[i])
  }

  function AllWithout(x: TxnId, store: Store): Store {
    if store == [] then [] else [Slot(store[0].key, Without(x, store[0].versions))] + AllWithout(x, store[1..])
  }

  function AllStamped(x: TxnId, store: Store, clock: nat): Store {
    if store == [] then [] else [Slot(store[0].key, Stamped(x, store[0].versions, clock))] + AllStamped(x, store[1..], clock)
  }

  lemma {:induction false} ChainAll(x: TxnId, store: Store, clock: nat, k: string)
    ensures Chain(AllWithout(x, store), k) == Without(x, Chain(store, k))
    ensures Chain(AllStamped(x, store, clock), k) == Stamped(x, Chain(store, k), clock)
  {
    if store != [] { ChainAll(x, store[1..], clock, k); }
  }

  function DoAbort(s: Node, x: TxnId, reason: Reason): Node {
    WithInfo(s, x, Info(s, x).(status := Aborted, endedAt := Some(s.clock), abortReason := Some(reason)))
      .(store := AllWithout(x, s.store), aborts := s.aborts + 1)
  }

  /** Reading some keys one after another, and the sum of what was read. */
  function ReadAll(s: Node, x: TxnId, keys: seq<string>): (Node, int) {
    if keys == [] then (s, 0)
    else
      var r := ReadAll(s, x, keys[..|keys| - 1]);
      var key := keys[|keys| - 1];
      (DoRead(r.0, x, key), r.1 + Recorded(key, PickVersion(r.0, x, key)).value)
  }

  function DoEnsure(s: Node, x: TxnId, keys: seq<string>, atLeast: int): Node {
    var r := ReadAll(s, x, keys);
    if r.1 < atLeast then DoAbort(r.0, x, EnsureFailed(keys, r.1, atLeast)) else r.0
  }

  /** Another transaction's version of the chain was committed after the stamp, and before the clock. */
  predicate Newer(x: TxnId, chain: seq<Version>, stamp: int, clock: nat) {
    exists i :: 0 <= i < |chain| && chain[i].txn != Some(x) && chain[i].committedAt.Some?
      && stamp < chain[i].committedAt.value < clock
  }

  /** The last read of a key that did not return the reader's own version. */
  function LastForeign(log: seq<ReadRecord>, x: TxnId, key: string): Option<ReadRecord> {
    if log == [] then None
    else if log[|log| - 1].key == key && log[|log| - 1].from != Some(x) then Some(log[|log| - 1])
    else LastForeign(log[..|log| - 1], x, key)
  }

  function StampOf(r: ReadRecord): int { if r.stamp.Some? then r.stamp.value else -1 }

  predicate Clobbers(s: Node, x: TxnId, key: string) {
    var r := LastForeign(Info(s, x).readLog, x, key);
    r.Some? && Newer(x, Chain(s.store, key), StampOf(r.value), s.clock)
  }

  function LostUpdates(s: Node, x: TxnId, writes: seq<string>): seq<Anomaly> {
    if writes == [] then []
    else
      LostUpdates(s, x, writes[..|writes| - 1]) +
      if Clobbers(s, x, writes[|writes| - 1]) then [LostUpdate(x, writes[|writes| - 1], s.clock)] else []
  }

  predicate Reads(i: TxnInfo, writes: seq<string>) {
    exists j :: 0 <= j < |i.readLog| && i.readLog[j].key in writes
  }

  predicate Overlap(a: TxnInfo, b: TxnInfo) {
    && a.beganAt.Some? && b.beganAt.Some? && a.endedAt.Some? && b.endedAt.Some?
    && a.beganAt.value < b.endedAt.value && b.beganAt.value < a.endedAt.value
  }

  predicate Skewed(a: TxnInfo, b: TxnInfo) {
    && b.status == Committed && a.writes != [] && b.writes != []
    && (forall k :: k in a.writes ==> k !in b.writes)
    && Overlap(a, b) && Reads(a, b.writes) && Reads(b, a.writes)
  }

  function Detect(s: Node, x: TxnId): Node {
    var lost := LostUpdates(s, x, Info(s, x).writes);
    var skew := if Skewed(Info(s, x), Info(s, Other(x))) then [WriteSkew(x, Other(x), s.clock)] else [];
    s.(anomalies := s.anomalies + lost + skew)
  }

  /** The first of some keys on which another transaction committed after the snapshot. */
  function Conflict(s: Node, x: TxnId, writes: seq<string>, snap: nat): Option<string> {
    if writes == [] then None
    else if NewerThan(x, Chain(s.store, writes[0]), snap) then Some(writes[0])
    else Conflict(s, x, writes[1..], snap)
  }

  predicate NewerThan(x: TxnId, chain: seq<Version>, snap: nat) {
    exists i :: 0 <= i < |chain| && chain[i].txn != Some(x) && chain[i].committedAt.Some? && chain[i].committedAt.value > snap
  }

  function Seal(s: Node, x: TxnId): Node {
    WithInfo(s, x, Info(s, x).(status := Committed, endedAt := Some(s.clock + 1)))
      .(store := AllStamped(x, s.store, s.clock + 1), commits := s.commits + 1, clock := s.clock + 1)
  }

  function DoCommit(s: Node, x: TxnId): Node {
    var snap := if Info(s, x).snapshotAt.Some? then Info(s, x).snapshotAt.value else 0;
    var conflict := if s.level == SI then Conflict(s, x, Info(s, x).writes, snap) else None;
    if conflict.Some? then DoAbort(s, x, WriteConflict(conflict.value)) else Detect(Seal(s, x), x)
  }

  // ---------- one operation ----------

  function DoBegin(s: Node, x: TxnId): Node {
    var i := Info(s, x).(status := Active, beganAt := Some(s.clock + 1));
    var r := WithInfo(s, x, if s.level == SI then i.(snapshotAt := Some(s.clock + 1)) else i);
    r.(clock := s.clock + 1, activeSer := if s.level == SER then Some(x) else s.activeSer)
  }

  function Perform(s: Node, x: TxnId, op: Op): Node {
    match op
    case Begin => DoBegin(s, x)
    case Read(key) => DoRead(s, x, key)
    case Write(key, value) => DoWrite(s, x, key, value)
    case Ensure(keys, atLeast) => DoEnsure(s, x, keys, atLeast)
    case Commit => DoCommit(s, x)
    case Abort => DoAbort(s, x, RolledBack)
  }

  function Release(s: Node, x: TxnId): Node {
    if s.level == SER && s.activeSer == Some(x) && Done(s, x) then s.(activeSer := None) else s
  }

  function Apply(s: Node, x: TxnId, op: Op): (r: Node)
    ensures r.queue == s.queue && r.queuedOps == s.queuedOps && r.skippedOps == s.skippedOps && r.level == s.level
  {
    PerformKeeps(s, x, op);
    Release(Perform(s, x, op), x)
  }

  lemma ReadAllKeeps(s: Node, x: TxnId, keys: seq<string>)
    ensures var r := ReadAll(s, x, keys).0;
      r.queue == s.queue && r.queuedOps == s.queuedOps && r.skippedOps == s.skippedOps && r.level == s.level
  {
  }

  lemma PerformKeeps(s: Node, x: TxnId, op: Op)
    ensures var r := Perform(s, x, op);
      r.queue == s.queue && r.queuedOps == s.queuedOps && r.skippedOps == s.skippedOps && r.level == s.level
  {
    if op.Ensure? { ReadAllKeeps(s, x, op.keys); }
  }

  // ---------- the serial queue ----------

  /** Nothing is parked, or another transaction holds the engine. */
  predicate Stuck(s: Node) {
    s.queue == [] || (!Done(s, s.queue[0].txn) && s.activeSer != None && s.activeSer != Some(s.queue[0].txn))
  }

  /** The head of the queue is skipped if its transaction is over, and applied otherwise. */
  function DrainNext(s: Node): (r: Node)
    requires s.queue != []
    ensures r.queue == s.queue[1..]
  {
    var head := s.queue[0];
    if Done(s, head.txn) then s.(queue := s.queue[1..], skippedOps := s.skippedOps + 1)
    else Apply(s.(queue := s.queue[1..]), head.txn, head.op)
  }

  function DrainQueue(s: Node): Node
    decreases |s.queue|
  {
    if Stuck(s) then s else DrainQueue(DrainNext(s))
  }

  function Park(s: Node, step: Step): Node {
    var i := Info(s, step.txn);
    WithInfo(s, step.txn, if i.status == Idle then i.(status := Waiting) else i)
      .(queue := s.queue + [step], queuedOps := s.queuedOps + 1)
  }

  predicate Admissible(s: Node, step: Step) {
    s.activeSer == Some(step.txn) || (s.activeSer == None && step.op == Begin)
  }

  function RunStep(s: Node, step: Step): Node {
    if Done(s, step.txn) then s.(skippedOps := s.skippedOps + 1)
    else if s.level != SER then Apply(s, step.txn, step.op)
    else if !Admissible(s, step) then Park(s, step)
    else DrainQueue(Apply(s, step.txn, step.op))
  }

  function Run(s: Node, steps: seq<Step>): Node {
    if steps == [] then s else RunStep(Run(s, steps[..|steps| - 1]), steps[|steps| - 1])
  }

  /** The latest committed value of a key: the newest stamp wins, the later version among equals. */
  function Latest(chain: seq<Version>): Option<Version> {
    if chain == [] then None
    else
      var best, v := Latest(chain[..|chain| - 1]), chain[|chain| - 1];
      if v.committedAt == None then best
      else if best.None? || best.value.committedAt.None? || v.committedAt.value >= best.value.committedAt.value then Some(v)
      else best
  }

  function CommittedValue(s: Node, key: string): Option<int> {
    var best := Latest(Chain(s.store, key));
    if best.Some? then Some(best.value.value) else None
  }
}
