/** What running one transaction and then the other means: a plain map, changed only by committed programs.
    The serial level computes it, and records no anomaly on the way. */
module TxnMeaning {
  import opened TxnEngine
  import opened TxnSerial

  // ---------- programs on a plain map ----------

  datatype Outcome = Running | Finished

  /** A transaction on a map: its own writes, and what it last read of each key. */
  datatype Plain = Plain(db: map<string, int>, local: map<string, int>, seen: map<string, int>, outcome: Outcome)

  function Lookup(m: map<string, int>, k: string): Option<int> { if k in m then Some(m[k]) else None }

  function ValueOf(p: Plain, k: string): int {
    if k in p.local then p.local[k] else if k in p.db then p.db[k] else 0
  }

  function Saw(p: Plain, k: string): Plain { p.(seen := p.seen[k := ValueOf(p, k)]) }

  function Put(p: Plain, k: string, n: int): Plain { p.(local := p.local[k := n]) }

  function SawAll(p: Plain, keys: seq<string>): Plain {
    if keys == [] then p else Saw(SawAll(p, keys[..|keys| - 1]), keys[|keys| - 1])
  }

  function Sum(p: Plain, keys: seq<string>): int {
    if keys == [] then 0 else Sum(p, keys[..|keys| - 1]) + ValueOf(p, keys[|keys| - 1])
  }

  function PlainOp(p: Plain, op: Op): Plain {
    if p.outcome == Finished then p
    else match op
      case Begin => p
      case Read(k) => Saw(p, k)
      case Write(k, value) => PlainWrite(p, k, value)
      case Ensure(keys, atLeast) => if Sum(p, keys) < atLeast then p.(outcome := Finished) else SawAll(p, keys)
      case Commit => p.(db := p.db + p.local, outcome := Finished)
      case Abort => p.(outcome := Finished)
  }

  function PlainRun(p: Plain, steps: seq<Step>): Plain {
    if steps == [] then p else PlainOp(PlainRun(p, steps[..|steps| - 1]), steps[|steps| - 1].op)
  }

  /** The map after a program has run on it alone. */
  function Meaning(db: map<string, int>, steps: seq<Step>): map<string, int> {
    PlainRun(Plain(db, map[], map[], Running), steps).db
  }

  // ---------- chains while x runs alone ----------

  /** Committed versions of others in the order of their stamps, then x's own. */
  ghost predicate ChainOk(x: TxnId, c: seq<Version>, clock: nat) {
    && (forall i :: 0 <= i < |c| ==>
         Own(x, c[i]) || (c[i].committedAt.Some? && c[i].txn != Some(x) && c[i].committedAt.value <= clock))
    && (forall i, j :: 0 <= i < j < |c| && Own(x, c[i]) ==> Own(x, c[j]))
    && (forall i, j :: 0 <= i < j < |c| && c[i].committedAt.Some? && c[j].committedAt.Some? ==>
         c[i].committedAt.value <= c[j].committedAt.value)
  }

  /** The chain of a key holds what the plain map holds. */
  ghost predicate Shows(x: TxnId, c: seq<Version>, k: string, p: Plain) {
    && (k in p.local <==> c != [] && Own(x, c[|c| - 1]))
    && (c != [] <==> k in p.db || k in p.local)
    && (c != [] ==> c[|c| - 1].value == ValueOf(p, k))
    && (Latest(c).Some? <==> k in p.db) && (Latest(c).Some? ==> Latest(c).value.value == p.db[k])
  }

  ghost predicate Recalls(log: seq<ReadRecord>, k: string, p: Plain) {
    && (LastRead(log, k).Some? <==> k in p.seen)
    && (LastRead(log, k).Some? ==> LastRead(log, k).value.value == p.seen[k])
  }

  ghost predicate KeyOk(s: Node, x: TxnId, p: Plain, k: string) {
    ChainOk(x, Chain(s.store, k), s.clock) && Shows(x, Chain(s.store, k), k, p) && Recalls(Info(s, x).readLog, k, p)
  }

  /** A read of another's version saw the newest there is. */
  ghost predicate Fresh(x: TxnId, r: ReadRecord, c: seq<Version>) {
    r.from != Some(x) ==>
      forall j :: 0 <= j < |c| && c[j].txn != Some(x) && c[j].committedAt.Some? ==> c[j].committedAt.value <= StampOf(r)
  }

  ghost predicate Solo(s: Node, x: TxnId, p: Plain) {
    && s.level == SER
    && (forall k {:trigger KeyOk(s, x, p, k)} :: KeyOk(s, x, p, k))
    && (forall i :: 0 <= i < |Info(s, x).readLog| ==>
         Fresh(x, Info(s, x).readLog[i], Chain(s.store, Info(s, x).readLog[i].key)))
  }

  /** At the serial level the newest version is the one read. */
  lemma PickIsLast(x: TxnId, c: seq<Version>, clock: nat, snap: Option<nat>)
    requires ChainOk(x, c, clock)
    ensures Pick(SER, snap, x, c) == if c == [] then None else Some(c[|c| - 1])
  {
  }

  lemma RecordedFresh(x: TxnId, c: seq<Version>, clock: nat, key: string)
    requires ChainOk(x, c, clock)
    ensures Fresh(x, Recorded(key, if c == [] then None else Some(c[|c| - 1])), c)
  {
  }

  lemma LastReadSnoc(log: seq<ReadRecord>, r: ReadRecord, k: string)
    ensures LastRead(log + [r], k) == if r.key == k then Some(r) else LastRead(log, k)
  {
    assert (log + [r])[..|log|] == log;
  }

  lemma ReadKeyOk(s: Node, s': Node, x: TxnId, p: Plain, key: string, r: ReadRecord, k: string)
    requires KeyOk(s, x, p, k) && s'.store == s.store && s'.clock == s.clock
    requires Info(s', x).readLog == Info(s, x).readLog + [r] && r.key == key && r.value == ValueOf(p, key)
    ensures KeyOk(s', x, Saw(p, key), k)
  {
    LastReadSnoc(Info(s, x).readLog, r, k);
  }

  /** What a read records at the serial level. */
  lemma ReadIs(s: Node, x: TxnId, p: Plain, key: string)
    requires Solo(s, x, p)
    ensures var r := Recorded(key, PickVersion(s, x, key));
      && r.key == key && r.value == ValueOf(p, key) && Fresh(x, r, Chain(s.store, key))
      && Info(DoRead(s, x, key), x).readLog == Info(s, x).readLog + [r]
      && DoRead(s, x, key).store == s.store && DoRead(s, x, key).clock == s.clock
      && DoRead(s, x, key).anomalies == s.anomalies && DoRead(s, x, key).level == s.level
  {
    var c := Chain(s.store, key);
    assert KeyOk(s, x, p, key);
    PickIsLast(x, c, s.clock, Info(s, x).snapshotAt);
    RecordedFresh(x, c, s.clock, key);
  }

  lemma ReadSolo(s: Node, x: TxnId, p: Plain, key: string)
    requires Solo(s, x, p)
    ensures Solo(DoRead(s, x, key), x, Saw(p, key)) && DoRead(s, x, key).anomalies == s.anomalies
    ensures Recorded(key, PickVersion(s, x, key)).value == ValueOf(p, key)
  {
    ReadIs(s, x, p, key);
    Extends(s, DoRead(s, x, key), x, p, key, Recorded(key, PickVersion(s, x, key)));
  }

  lemma Extends(s: Node, s': Node, x: TxnId, p: Plain, key: string, r: ReadRecord)
    requires Solo(s, x, p) && s'.store == s.store && s'.clock == s.clock && s'.level == s.level
    requires Info(s', x).readLog == Info(s, x).readLog + [r] && r.key == key && r.value == ValueOf(p, key)
    requires Fresh(x, r, Chain(s.store, key))
    ensures Solo(s', x, Saw(p, key))
  {
    forall k ensures KeyOk(s', x, Saw(p, key), k) {
      assert KeyOk(s, x, p, k);
      ReadKeyOk(s, s', x, p, key, r, k);
    }
  }

  lemma ChainSnoc(x: TxnId, c: seq<Version>, clock: nat, k: string, p: Plain, n: int)
    requires ChainOk(x, c, clock) && Shows(x, c, k, p)
    ensures ChainOk(x, c + [Version(n, Some(x), None)], clock)
    ensures Shows(x, c + [Version(n, Some(x), None)], k, Put(p, k, n))
  {
    assert (c + [Version(n, Some(x), None)])[..|c|] == c;
  }

  lemma FreshSnoc(x: TxnId, r: ReadRecord, c: seq<Version>, n: int)
    requires Fresh(x, r, c)
    ensures Fresh(x, r, c + [Version(n, Some(x), None)])
  {
  }

  lemma AppendIs(s: Node, x: TxnId, key: string, n: int)
    ensures var s' := Append(s, x, key, n);
      && Info(s', x).readLog == Info(s, x).readLog && s'.clock == s.clock && s'.level == s.level
      && s'.anomalies == s.anomalies && s'.store == PutChain(s.store, key, Chain(s.store, key) + [Version(n, Some(x), None)])
  {
  }

  lemma Appends(s: Node, s': Node, x: TxnId, p: Plain, key: string, n: int)
    requires Solo(s, x, p) && Info(s', x).readLog == Info(s, x).readLog && s'.clock == s.clock && s'.level == s.level
    requires s'.store == PutChain(s.store, key, Chain(s.store, key) + [Version(n, Some(x), None)])
    ensures Solo(s', x, Put(p, key, n))
  {
    var c := Chain(s.store, key) + [Version(n, Some(x), None)];
    forall k ensures KeyOk(s', x, Put(p, key, n), k) {
      assert KeyOk(s, x, p, k);
      ChainPut(s.store, key, c, k);
      if k == key { ChainSnoc(x, Chain(s.store, key), s.clock, k, p, n); }
    }
    forall i | 0 <= i < |Info(s, x).readLog|
      ensures Fresh(x, Info(s', x).readLog[i], Chain(s'.store, Info(s', x).readLog[i].key))
    {
      ChainPut(s.store, key, c, Info(s, x).readLog[i].key);
      FreshSnoc(x, Info(s, x).readLog[i], Chain(s.store, Info(s, x).readLog[i].key), n);
    }
  }

  lemma AppendSolo(s: Node, x: TxnId, p: Plain, key: string, n: int)
    requires Solo(s, x, p)
    ensures Solo(Append(s, x, key, n), x, Put(p, key, n)) && Append(s, x, key, n).anomalies == s.anomalies
  {
    AppendIs(s, x, key, n);
    Appends(s, Append(s, x, key, n), x, p, key, n);
  }

  lemma IncReads(s: Node, x: TxnId, p: Plain, key: string, n: int)
    requires Solo(s, x, p) && key !in p.seen
    ensures DoWrite(s, x, key, Inc(n)) == Append(DoRead(s, x, key), x, key, ValueOf(p, key) + n)
  {
    assert KeyOk(s, x, p, key);
    ReadSolo(s, x, p, key);
  }

  lemma IncSolo(s: Node, x: TxnId, p: Plain, key: string, n: int, r: Node)
    requires Solo(s, x, p) && key !in p.seen && r == DoWrite(s, x, key, Inc(n))
    ensures Solo(r, x, Put(Saw(p, key), key, ValueOf(p, key) + n)) && r.anomalies == s.anomalies
  {
    IncReads(s, x, p, key, n);
    ReadSolo(s, x, p, key);
    AppendSolo(DoRead(s, x, key), x, Saw(p, key), key, ValueOf(p, key) + n);
  }

  lemma SeenInc(s: Node, x: TxnId, p: Plain, key: string, n: int)
    requires Solo(s, x, p) && key in p.seen
    ensures DoWrite(s, x, key, Inc(n)) == Append(s, x, key, p.seen[key] + n)
  {
    assert KeyOk(s, x, p, key);
  }

  lemma SeenIncSolo(s: Node, x: TxnId, p: Plain, key: string, n: int, r: Node)
    requires Solo(s, x, p) && key in p.seen && r == DoWrite(s, x, key, Inc(n))
    ensures Solo(r, x, Put(p, key, p.seen[key] + n)) && r.anomalies == s.anomalies
  {
    SeenInc(s, x, p, key, n);
    AppendSolo(s, x, p, key, p.seen[key] + n);
  }

  lemma SetSolo(s: Node, x: TxnId, p: Plain, key: string, n: int, r: Node)
    requires Solo(s, x, p) && r == DoWrite(s, x, key, Set(n))
    ensures Solo(r, x, Put(p, key, n)) && r.anomalies == s.anomalies
  {
    AppendSolo(s, x, p, key, n);
  }

  /** A write on the plain map. */
  function PlainWrite(p: Plain, key: string, value: WriteValue): Plain {
    match value
    case Set(n) => Put(p, key, n)
    case Inc(n) => if key in p.seen then Put(p, key, p.seen[key] + n) else Put(Saw(p, key), key, ValueOf(p, key) + n)
  }

  lemma WriteSolo(s: Node, x: TxnId, p: Plain, key: string, value: WriteValue)
    requires Solo(s, x, p)
    ensures Solo(DoWrite(s, x, key, value), x, PlainWrite(p, key, value))
    ensures DoWrite(s, x, key, value).anomalies == s.anomalies
  {
    var r := DoWrite(s, x, key, value);
    match value {
      case Set(n) => { SetSolo(s, x, p, key, n, r); }
      case Inc(n) => { if key in p.seen { SeenIncSolo(s, x, p, key, n, r); } else { IncSolo(s, x, p, key, n, r); } }
    }
  }

  lemma {:induction false} SawAllValue(p: Plain, keys: seq<string>, k: string)
    ensures ValueOf(SawAll(p, keys), k) == ValueOf(p, k) && SawAll(p, keys).outcome == p.outcome
    ensures SawAll(p, keys).db == p.db && SawAll(p, keys).local == p.local
  {
    if keys != [] { SawAllValue(p, keys[..|keys| - 1], k); }
  }

  lemma {:induction false} ReadAllSolo(s: Node, x: TxnId, p: Plain, keys: seq<string>)
    requires Solo(s, x, p)
    ensures var r := ReadAll(s, x, keys);
      Solo(r.0, x, SawAll(p, keys)) && r.1 == Sum(p, keys) && r.0.anomalies == s.anomalies
  {
    if keys != [] {
      var front, key := keys[..|keys| - 1], keys[|keys| - 1];
      ReadAllSolo(s, x, p, front);
      ReadSolo(ReadAll(s, x, front).0, x, SawAll(p, front), key);
      SawAllValue(p, front, key);
    }
  }

  // ---------- the end of a transaction ----------

  /** Everything is committed, in the order of the stamps, and the newest versions make up a plain map. */
  ghost predicate Rests(s: Node, db: map<string, int>) {
    s.level == SER && forall k {:trigger RestsAt(s, db, k)} :: RestsAt(s, db, k)
  }

  ghost predicate RestsAt(s: Node, db: map<string, int>, k: string) {
    Settled(Chain(s.store, k), s.clock) && Values(Chain(s.store, k), k, db)
  }

  ghost predicate Values(c: seq<Version>, k: string, db: map<string, int>) {
    && (c != [] <==> k in db)
    && (c != [] ==> c[|c| - 1].value == db[k])
    && (Latest(c).Some? <==> k in db) && (Latest(c).Some? ==> Latest(c).value.value == db[k])
  }

  ghost predicate Unwritten(y: TxnId, c: seq<Version>) {
    forall i :: 0 <= i < |c| ==> c[i].txn != Some(y)
  }

  /** Versions all committed in order. */
  ghost predicate Settled(c: seq<Version>, clock: nat) {
    && (forall i :: 0 <= i < |c| ==> c[i].committedAt.Some? && c[i].committedAt.value <= clock)
    && (forall i, j :: 0 <= i < j < |c| ==> c[i].committedAt.value <= c[j].committedAt.value)
  }

  lemma {:induction false} LatestIsLast(c: seq<Version>, clock: nat)
    requires Settled(c, clock)
    ensures Latest(c) == if c == [] then None else Some(c[|c| - 1])
  {
    if c != [] { LatestIsLast(c[..|c| - 1], clock); }
  }

  lemma SealSettles(x: TxnId, c: seq<Version>, clock: nat)
    requires ChainOk(x, c, clock)
    ensures Settled(Stamped(x, c, clock + 1), clock + 1)
  {
  }

  lemma {:induction false} WithoutNone(x: TxnId, c: seq<Version>)
    requires forall i :: 0 <= i < |c| ==> !Own(x, c[i])
    ensures Without(x, c) == c
  {
    if c != [] { WithoutNone(x, c[..|c| - 1]); }
  }

  /** Dropping x's uncommitted versions leaves a prefix. */
  lemma {:induction false} WithoutPrefix(x: TxnId, c: seq<Version>)
    requires forall i, j :: 0 <= i < j < |c| && Own(x, c[i]) ==> Own(x, c[j])
    ensures Without(x, c) <= c && Latest(Without(x, c)) == Latest(c)
    ensures forall i :: 0 <= i < |Without(x, c)| ==> !Own(x, c[i])
  {
    if c != [] {
      var front, v := c[..|c| - 1], c[|c| - 1];
      if Own(x, v) {
        WithoutPrefix(x, front);
        assert Without(x, c) == Without(x, front);
      } else {
        WithoutNone(x, c);
      }
    }
  }

  lemma WithoutSettles(x: TxnId, c: seq<Version>, clock: nat)
    requires ChainOk(x, c, clock)
    ensures Settled(Without(x, c), clock)
  {
    WithoutPrefix(x, c);
    var w := Without(x, c);
    forall i | 0 <= i < |w| ensures w[i].committedAt.Some? && w[i].committedAt.value <= clock { assert w[i] == c[i]; }
  }

  lemma SettledRests(s: Node, db: map<string, int>, k: string)
    requires var c := Chain(s.store, k);
      Settled(c, s.clock) && (c != [] <==> k in db) && (c != [] ==> c[|c| - 1].value == db[k])
    ensures RestsAt(s, db, k)
  {
    LatestIsLast(Chain(s.store, k), s.clock);
  }

  // ---------- who has written ----------

  ghost predicate NoneBy(s: Node, y: TxnId) {
    forall k {:trigger Chain(s.store, k)} :: Unwritten(y, Chain(s.store, k))
  }

  lemma {:induction false} ReadAllStore(s: Node, x: TxnId, keys: seq<string>)
    ensures ReadAll(s, x, keys).0.store == s.store && ReadAll(s, x, keys).0.clock == s.clock
    ensures Info(ReadAll(s, x, keys).0, x).beganAt == Info(s, x).beganAt
  {
    if keys != [] { ReadAllStore(s, x, keys[..|keys| - 1]); }
  }

  lemma {:induction false} WithoutIn(x: TxnId, c: seq<Version>, y: TxnId)
    requires Unwritten(y, c)
    ensures Unwritten(y, Without(x, c))
  {
    if c != [] { WithoutIn(x, c[..|c| - 1], y); }
  }

  lemma AbortNoneBy(s: Node, x: TxnId, reason: Reason, y: TxnId)
    requires NoneBy(s, y)
    ensures NoneBy(DoAbort(s, x, reason), y)
  {
    forall k ensures Unwritten(y, Chain(DoAbort(s, x, reason).store, k)) {
      ChainAll(x, s.store, 0, k);
      WithoutIn(x, Chain(s.store, k), y);
    }
  }

  lemma AppendNoneBy(s: Node, x: TxnId, key: string, n: int)
    requires NoneBy(s, Other(x))
    ensures NoneBy(Append(s, x, key, n), Other(x))
  {
    forall k ensures Unwritten(Other(x), Chain(Append(s, x, key, n).store, k)) {
      ChainPut(s.store, key, Chain(s.store, key) + [Version(n, Some(x), None)], k);
      assert Unwritten(Other(x), Chain(s.store, k)) && Unwritten(Other(x), Chain(s.store, key));
    }
  }

  lemma CommitNoneBy(s: Node, x: TxnId)
    requires NoneBy(s, Other(x)) && s.level == SER
    ensures NoneBy(DoCommit(s, x), Other(x))
  {
    forall k ensures Unwritten(Other(x), Chain(DoCommit(s, x).store, k)) {
      ChainAll(x, s.store, s.clock + 1, k);
      assert Unwritten(Other(x), Chain(s.store, k));
    }
  }

  lemma ApplyNoneBy(s: Node, x: TxnId, op: Op)
    requires NoneBy(s, Other(x)) && s.level == SER
    ensures NoneBy(Apply(s, x, op), Other(x))
  {
    match op {
      case Write(key, value) => { WriteNoneBy(s, x, key, value); }
      case Ensure(keys, atLeast) => {
        ReadAllStore(s, x, keys);
        var r := ReadAll(s, x, keys);
        assert NoneBy(r.0, Other(x));
        AbortNoneBy(r.0, x, EnsureFailed(keys, r.1, atLeast), Other(x));
      }
      case Commit => { CommitNoneBy(s, x); }
      case Abort => { AbortNoneBy(s, x, RolledBack, Other(x)); }
      case Begin => {}
      case Read(key) => {}
    }
  }

  lemma WriteNoneBy(s: Node, x: TxnId, key: string, value: WriteValue)
    requires NoneBy(s, Other(x))
    ensures NoneBy(DoWrite(s, x, key, value), Other(x))
  {
    match value {
      case Set(n) => { AppendNoneBy(s, x, key, n); }
      case Inc(n) => {
        var prior := LastRead(Info(s, x).readLog, key);
        if prior.Some? {
          AppendNoneBy(s, x, key, prior.value.value + n);
        } else {
          AppendNoneBy(DoRead(s, x, key), x, key, Recorded(key, PickVersion(s, x, key)).value + n);
        }
      }
    }
  }

  // ---------- ends and beginnings ----------

  /** The other transaction, if committed, ended before x began. */
  ghost predicate Apart(s: Node, x: TxnId) {
    var o := Info(s, Other(x));
    o.status == Committed ==>
      o.endedAt.Some? && Info(s, x).beganAt.Some? && o.endedAt.value < Info(s, x).beganAt.value
  }

  lemma {:induction false} LastForeignIn(log: seq<ReadRecord>, x: TxnId, key: string)
    ensures LastForeign(log, x, key).Some? ==>
      var r := LastForeign(log, x, key).value; r in log && r.key == key && r.from != Some(x)
  {
    if log != [] { LastForeignIn(log[..|log| - 1], x, key); }
  }

  lemma NotClobbered(s: Node, x: TxnId, p: Plain, key: string)
    requires Solo(s, x, p)
    ensures !Clobbers(Seal(s, x), x, key)
  {
    var log := Info(s, x).readLog;
    LastForeignIn(log, x, key);
    var c := Chain(s.store, key);
    ChainAll(x, s.store, s.clock + 1, key);
    if LastForeign(log, x, key).Some? {
      var r := LastForeign(log, x, key).value;
      var i :| 0 <= i < |log| && log[i] == r;
      assert Fresh(x, log[i], c);
      NoNewer(x, r, c, s.clock);
    }
  }

  lemma NoNewer(x: TxnId, r: ReadRecord, c: seq<Version>, clock: nat)
    requires Fresh(x, r, c) && r.from != Some(x)
    ensures !Newer(x, Stamped(x, c, clock + 1), StampOf(r), clock + 1)
  {
    forall i | 0 <= i < |c| && Stamped(x, c, clock + 1)[i].txn != Some(x) ensures Stamped(x, c, clock + 1)[i] == c[i] {}
  }

  lemma {:induction false} NoLostUpdates(s: Node, x: TxnId, p: Plain, writes: seq<string>)
    requires Solo(s, x, p)
    ensures LostUpdates(Seal(s, x), x, writes) == []
  {
    if writes != [] {
      NoLostUpdates(s, x, p, writes[..|writes| - 1]);
      NotClobbered(s, x, p, writes[|writes| - 1]);
    }
  }

  lemma CommitQuiet(s: Node, x: TxnId, p: Plain)
    requires Solo(s, x, p) && Apart(s, x)
    ensures DoCommit(s, x) == Seal(s, x)
  {
    NoLostUpdates(s, x, p, Info(Seal(s, x), x).writes);
    assert !Overlap(Info(Seal(s, x), x), Info(Seal(s, x), Other(x))) || Info(s, Other(x)).status != Committed;
  }

  lemma CommitRests(s: Node, x: TxnId, p: Plain)
    requires Solo(s, x, p) && Apart(s, x)
    ensures Rests(DoCommit(s, x), p.db + p.local) && DoCommit(s, x).anomalies == s.anomalies
  {
    CommitQuiet(s, x, p);
    var s' := Seal(s, x);
    forall k ensures RestsAt(s', p.db + p.local, k) {
      assert KeyOk(s, x, p, k);
      SealSettles(x, Chain(s.store, k), s.clock);
      ChainAll(x, s.store, s.clock + 1, k);
      SettledRests(s', p.db + p.local, k);
    }
  }

  lemma AbortRests(s: Node, x: TxnId, p: Plain, reason: Reason)
    requires Solo(s, x, p)
    ensures Rests(DoAbort(s, x, reason), p.db) && DoAbort(s, x, reason).anomalies == s.anomalies
  {
    var s' := DoAbort(s, x, reason);
    forall k ensures RestsAt(s', p.db, k) {
      var c := Chain(s.store, k);
      assert KeyOk(s, x, p, k);
      WithoutSettles(x, c, s.clock);
      WithoutPrefix(x, c);
      LatestIsLast(Without(x, c), s.clock);
      ChainAll(x, s.store, 0, k);
      SettledRests(s', p.db, k);
    }
  }

  lemma BeginSolo(s: Node, x: TxnId, db: map<string, int>)
    requires Rests(s, db) && NoneBy(s, x) && Info(s, x) == FRESH
    ensures Solo(Apply(s, x, Begin), x, Plain(db, map[], map[], Running))
  {
    var s', p := Apply(s, x, Begin), Plain(db, map[], map[], Running);
    forall k ensures KeyOk(s', x, p, k) { assert RestsAt(s, db, k) && Unwritten(x, Chain(s.store, k)); }
  }

  // ---------- a program running alone ----------

  /** The node and the plain map after the same steps of x. */
  ghost predicate Follows(s: Node, x: TxnId, p: Plain) {
    if p.outcome == Running then Solo(s, x, p) && Apart(s, x) && !Done(s, x)
    else Rests(s, p.db) && Done(s, x) && Info(s, x).endedAt.Some? && Info(s, x).endedAt.value <= s.clock
  }

  lemma ReleaseFollows(s: Node, x: TxnId, p: Plain)
    requires Follows(s, x, p)
    ensures Follows(Release(s, x), x, p)
  {
    var s' := Release(s, x);
    if p.outcome == Running {
      forall k ensures KeyOk(s', x, p, k) { assert KeyOk(s, x, p, k); }
    } else {
      forall k ensures RestsAt(s', p.db, k) { assert RestsAt(s, p.db, k); }
    }
  }

  lemma EnsureFollows(s: Node, x: TxnId, p: Plain, keys: seq<string>, atLeast: int)
    requires Follows(s, x, p) && p.outcome == Running
    ensures Follows(DoEnsure(s, x, keys, atLeast), x, PlainOp(p, Ensure(keys, atLeast)))
    ensures DoEnsure(s, x, keys, atLeast).anomalies == s.anomalies
  {
    ReadAllSolo(s, x, p, keys);
    var r := ReadAll(s, x, keys);
    SawAllValue(p, keys, "");
    ReadAllStore(s, x, keys);
    ReadAllStatus(s, x, keys);
    ReadAllDressed(s, x, keys, Dressing(Idle, [], 0, 0));
    if r.1 < atLeast { AbortRests(r.0, x, SawAll(p, keys), EnsureFailed(keys, r.1, atLeast)); }
  }

  lemma WriteFollows(s: Node, x: TxnId, p: Plain, key: string, value: WriteValue)
    requires Follows(s, x, p) && p.outcome == Running
    ensures Follows(DoWrite(s, x, key, value), x, PlainOp(p, Write(key, value)))
    ensures DoWrite(s, x, key, value).anomalies == s.anomalies
  {
    WriteSolo(s, x, p, key, value);
    WriteDressed(s, x, key, value, Dressing(Idle, [], 0, 0));
    WriteInfo(s, x, key, value);
  }

  lemma WriteInfo(s: Node, x: TxnId, key: string, value: WriteValue)
    ensures var i := Info(DoWrite(s, x, key, value), x);
      i.status == Info(s, x).status && i.beganAt == Info(s, x).beganAt
  {
  }

  lemma PerformFollows(s: Node, x: TxnId, p: Plain, op: Op)
    requires Follows(s, x, p) && p.outcome == Running && (Inner(op) || Last(op))
    ensures Follows(Perform(s, x, op), x, PlainOp(p, op)) && Perform(s, x, op).anomalies == s.anomalies
  {
    match op {
      case Read(key) => { ReadSolo(s, x, p, key); }
      case Write(key, value) => { WriteFollows(s, x, p, key, value); }
      case Ensure(keys, atLeast) => { EnsureFollows(s, x, p, keys, atLeast); }
      case Commit => {
        CommitRests(s, x, p);
        CommitQuiet(s, x, p);
      }
      case Abort => { AbortRests(s, x, p, RolledBack); }
      case Begin => {}
    }
  }

  lemma StepFollows(s: Node, step: Step, p: Plain)
    requires Follows(s, step.txn, p) && (Inner(step.op) || Last(step.op))
    ensures Follows(DirectStep(s, step), step.txn, PlainOp(p, step.op)) && DirectStep(s, step).anomalies == s.anomalies
  {
    if p.outcome == Running {
      PerformFollows(s, step.txn, p, step.op);
      ReleaseFollows(Perform(s, step.txn, step.op), step.txn, PlainOp(p, step.op));
    } else {
      forall k ensures RestsAt(DirectStep(s, step), p.db, k) { assert RestsAt(s, p.db, k); }
    }
  }

  /** Where a transaction may begin: everything at rest, and the other one not begun or already over. */
  ghost predicate Ready(s: Node, x: TxnId, db: map<string, int>) {
    && Rests(s, db) && NoneBy(s, x) && Info(s, x) == FRESH
    && (var o := Info(s, Other(x)); o.status == Committed ==> o.endedAt.Some? && o.endedAt.value <= s.clock)
  }

  lemma {:induction false} ProgramFollows(s: Node, steps: seq<Step>, x: TxnId, whole: nat, db: map<string, int>)
    requires Program(steps, x, whole) && steps != [] && whole >= 2 && Ready(s, x, db)
    ensures Follows(Direct(s, steps), x, PlainRun(Plain(db, map[], map[], Running), steps))
    ensures Direct(s, steps).anomalies == s.anomalies
  {
    var front, last := steps[..|steps| - 1], steps[|steps| - 1];
    if front == [] {
      assert steps == [last] && steps[..0] == [];
      BeginSolo(s, x, db);
      DirectOne(s, last);
      assert PlainRun(Plain(db, map[], map[], Running), steps) == Plain(db, map[], map[], Running);
    } else {
      ProgramFollows(s, front, x, whole, db);
      StepFollows(Direct(s, front), last, PlainRun(Plain(db, map[], map[], Running), front));
    }
  }

  lemma {:induction false} DirectNoneBy(s: Node, steps: seq<Step>, x: TxnId)
    requires OnlyOf(steps, x) && NoneBy(s, Other(x)) && s.level == SER
    ensures NoneBy(Direct(s, steps), Other(x))
  {
    if steps != [] {
      DirectNoneBy(s, steps[..|steps| - 1], x);
      var t := Direct(s, steps[..|steps| - 1]);
      QueueKept(s, steps[..|steps| - 1]);
      var last := steps[|steps| - 1];
      if Done(t, x) {
        forall k ensures Unwritten(Other(x), Chain(DirectStep(t, last).store, k)) {
          assert Unwritten(Other(x), Chain(t.store, k));
        }
      } else {
        ApplyNoneBy(t, x, last.op);
      }
    }
  }

  /** The map the seeds make up. */
  function Table(initial: seq<(string, int)>): map<string, int> {
    if initial == [] then map[] else Table(initial[..|initial| - 1])[initial[|initial| - 1].0 := initial[|initial| - 1].1]
  }

  lemma {:induction false} SeedsAre(initial: seq<(string, int)>, k: string)
    ensures Chain(Seeds(initial), k) == if k in Table(initial) then [Version(Table(initial)[k], None, Some(0))] else []
  {
    if initial != [] {
      var front, last := initial[..|initial| - 1], initial[|initial| - 1];
      SeedsAre(front, k);
      ChainPut(Seeds(front), last.0, [Version(last.1, None, Some(0))], k);
    }
  }

  lemma InitReady(initial: seq<(string, int)>, x: TxnId)
    ensures Ready(Init(SER, initial), x, Table(initial)) && Start(Init(SER, initial))
    ensures NoneBy(Init(SER, initial), Other(x))
  {
    var s := Init(SER, initial);
    forall k ensures RestsAt(s, Table(initial), k) {
      SeedsAre(initial, k);
      SettledRests(s, Table(initial), k);
    }
    forall k ensures Unwritten(x, Chain(s.store, k)) && Unwritten(Other(x), Chain(s.store, k)) { SeedsAre(initial, k); }
  }

  /** A complete program run alone finishes the plain program too. */
  lemma WholeFinishes(s: Node, steps: seq<Step>, x: TxnId, db: map<string, int>)
    requires Whole(steps, x) && Ready(s, x, db) && s.activeSer == None
    ensures var r := Direct(s, steps);
      && Rests(r, Meaning(db, steps)) && r.anomalies == s.anomalies && r.activeSer == None
      && Info(r, x).endedAt.Some? && Info(r, x).endedAt.value <= r.clock
  {
    ProgramFollows(s, steps, x, |steps|, db);
    DirectHolds(s, steps, x, |steps|);
  }

  /** After any interleaving of two complete transactions on a serial node, every key holds what running the
      first-begun program on a plain map, and then the other, leaves there; and no anomaly was recorded. */
  lemma SerialMeaning(initial: seq<(string, int)>, steps: seq<Step>, k: string)
    requires steps != [] && Whole(StepsOf(steps, T1), T1) && Whole(StepsOf(steps, T2), T2)
    ensures var a := steps[0].txn;
      var s := Run(Init(SER, initial), steps);
      && CommittedValue(s, k) == Lookup(Meaning(Meaning(Table(initial), StepsOf(steps, a)), StepsOf(steps, Other(a))), k)
      && s.anomalies == []
  {
    var a, s0 := steps[0].txn, Init(SER, initial);
    var pa, pb := StepsOf(steps, a), StepsOf(steps, Other(a));
    InitReady(initial, a);
    Finishes(s0, steps, a);
    WholeFinishes(s0, pa, a, Table(initial));
    IdleOther(s0, pa, a);
    DirectNoneBy(s0, pa, a);
    WholeFinishes(Direct(s0, pa), pb, Other(a), Meaning(Table(initial), pa));
    DirectConcat(s0, pa, pb);
    assert RestsAt(Direct(Direct(s0, pa), pb), Meaning(Meaning(Table(initial), pa), pb), k);
  }

  // ---------- dirty reads, at every level ----------

  ghost predicate Clean(anomalies: seq<Anomaly>) {
    forall i :: 0 <= i < |anomalies| ==> !anomalies[i].DirtyRead?
  }

  lemma {:induction false} PickClean(level: Level, snap: Option<nat>, x: TxnId, c: seq<Version>)
    requires level != RU
    ensures !Dirty(x, Pick(level, snap, x, c))
  {
    if c != [] { PickClean(level, snap, x, c[..|c| - 1]); }
  }

  /** Committed, or the reader's own. */
  predicate Readable(x: TxnId, v: Version) { v.committedAt.Some? || v.txn == Some(x) }

  ghost predicate NewestReadable(x: TxnId, c: seq<Version>, i: nat) {
    i < |c| && Readable(x, c[i]) && forall j :: i < j < |c| ==> !Readable(x, c[j])
  }

  /** At read-committed and serial levels a read returns the newest version that is committed or the reader's own. */
  lemma {:induction false} CommittedReads(level: Level, snap: Option<nat>, x: TxnId, c: seq<Version>)
    requires level == RC || level == SER
    ensures Pick(level, snap, x, c).None? ==> forall i :: 0 <= i < |c| ==> !Readable(x, c[i])
    ensures Pick(level, snap, x, c).Some? ==> exists i: nat :: NewestReadable(x, c, i) && c[i] == Pick(level, snap, x, c).value
  {
    if c != [] {
      var n := |c| - 1;
      var front := c[..n];
      if Visible(level, snap, x, c[n]) {
        assert NewestReadable(x, c, n);
      } else {
        CommittedReads(level, snap, x, front);
        assert forall i :: 0 <= i < n ==> front[i] == c[i];
        if Pick(level, snap, x, c).Some? {
          var i: nat :| NewestReadable(x, front, i) && front[i] == Pick(level, snap, x, front).value;
          assert NewestReadable(x, c, i);
        }
      }
    }
  }

  /** A read is recorded as dirty exactly at read-uncommitted, when the newest version of the key is another's and not
      committed. */
  lemma DirtyReadIff(s: Node, x: TxnId, key: string)
    ensures var c := Chain(s.store, key);
      var dirty := s.level == RU && c != [] && c[|c| - 1].committedAt == None && c[|c| - 1].txn != Some(x);
      DoRead(s, x, key).anomalies == s.anomalies + if dirty then [DirtyRead(x, c[|c| - 1], key, s.clock)] else []
  {
    if s.level != RU { PickClean(s.level, Info(s, x).snapshotAt, x, Chain(s.store, key)); }
  }

  lemma {:induction false} ReadAllClean(s: Node, x: TxnId, keys: seq<string>)
    requires s.level != RU
    ensures ReadAll(s, x, keys).0.anomalies == s.anomalies && ReadAll(s, x, keys).0.level == s.level
  {
    if keys != [] {
      var key := keys[|keys| - 1];
      ReadAllClean(s, x, keys[..|keys| - 1]);
      var r := ReadAll(s, x, keys[..|keys| - 1]).0;
      PickClean(r.level, Info(r, x).snapshotAt, x, Chain(r.store, key));
    }
  }

  lemma {:induction false} LostClean(s: Node, x: TxnId, writes: seq<string>)
    ensures Clean(LostUpdates(s, x, writes))
  {
    if writes != [] { LostClean(s, x, writes[..|writes| - 1]); }
  }

  lemma ApplyClean(s: Node, x: TxnId, op: Op)
    requires s.level != RU && Clean(s.anomalies)
    ensures Clean(Apply(s, x, op).anomalies)
  {
    match op {
      case Read(key) => { PickClean(s.level, Info(s, x).snapshotAt, x, Chain(s.store, key)); }
      case Write(key, value) => { PickClean(s.level, Info(s, x).snapshotAt, x, Chain(s.store, key)); }
      case Ensure(keys, atLeast) => { ReadAllClean(s, x, keys); }
      case Commit => { LostClean(Seal(s, x), x, Info(Seal(s, x), x).writes); }
      case _ => {}
    }
  }

  lemma {:induction false} DrainClean(s: Node)
    requires s.level != RU && Clean(s.anomalies)
    ensures Clean(DrainQueue(s).anomalies) && DrainQueue(s).level == s.level
    decreases |s.queue|
  {
    if !Stuck(s) {
      ApplyClean(s.(queue := s.queue[1..]), s.queue[0].txn, s.queue[0].op);
      DrainClean(DrainNext(s));
    }
  }

  lemma StepClean(s: Node, step: Step)
    requires s.level != RU && Clean(s.anomalies)
    ensures Clean(RunStep(s, step).anomalies) && RunStep(s, step).level == s.level
  {
    if !Done(s, step.txn) {
      ApplyClean(s, step.txn, step.op);
      DrainClean(Apply(s, step.txn, step.op));
    }
  }

  /** Whatever the schedule, well formed or not, only read-uncommitted ever records a dirty read. */
  lemma {:induction false} NoDirtyReads(level: Level, initial: seq<(string, int)>, steps: seq<Step>)
    requires level != RU
    ensures Clean(Run(Init(level, initial), steps).anomalies) && Run(Init(level, initial), steps).level == level
  {
    if steps != [] {
      NoDirtyReads(level, initial, steps[..|steps| - 1]);
      StepClean(Run(Init(level, initial), steps[..|steps| - 1]), steps[|steps| - 1]);
    }
  }
}
