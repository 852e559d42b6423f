/** The snapshot level, one step at a time: which version a read returns, and when a commit loses an update. */
module TxnSnapshot {
  import opened TxnEngine

  function SnapOf(i: TxnInfo): nat { if i.snapshotAt.Some? then i.snapshotAt.value else 0 }

  // ---------- what the chains keep ----------

  /** Only the bottom version is a seed; a version is stamped exactly when its writer has committed, with the end
      of the writer; and an aborted writer has none. */
  predicate StampOk(v: Version, bottom: bool, a: TxnInfo, b: TxnInfo) {
    match v.txn
    case None => bottom && v.committedAt == Some(0)
    case Some(z) =>
      var i := if z == T1 then a else b;
      i.status != Aborted && v.committedAt == if i.status == Committed then i.endedAt else None
  }

  ghost predicate Stamps(c: seq<Version>, a: TxnInfo, b: TxnInfo) {
    forall i :: 0 <= i < |c| ==> StampOk(c[i], i == 0, a, b)
  }

  ghost predicate HasBy(c: seq<Version>, z: TxnId) {
    exists i :: 0 <= i < |c| && c[i].txn == Some(z)
  }

  /** A transaction that did not abort has a version of exactly the keys it wrote. */
  ghost predicate KeyOk(s: Node, k: string) {
    && Stamps(Chain(s.store, k), s.t1, s.t2)
    && (s.t1.status != Aborted ==> (k in s.t1.writes <==> HasBy(Chain(s.store, k), T1)))
    && (s.t2.status != Aborted ==> (k in s.t2.writes <==> HasBy(Chain(s.store, k), T2)))
  }

  ghost predicate InTime(i: TxnInfo, clock: nat) {
    && (i.status == Committed ==> i.endedAt.Some? && 0 < i.endedAt.value <= clock)
    && (i.snapshotAt.Some? ==> 0 < i.snapshotAt.value <= clock)
  }

  predicate Seeded(s: Node, k: string) {
    Chain(s.store, k) != [] && Chain(s.store, k)[0].txn == None
  }

  /** A read of a seeded key found at least the seed. */
  ghost predicate SeedsRead(s: Node, x: TxnId) {
    forall r :: r in Info(s, x).readLog && r.from != Some(x) && Seeded(s, r.key) ==> StampOf(r) >= 0
  }

  ghost predicate Snapped(s: Node) {
    && s.level == SI && InTime(s.t1, s.clock) && InTime(s.t2, s.clock)
    && (forall k :: KeyOk(s, k))
    && SeedsRead(s, T1) && SeedsRead(s, T2)
  }

  // ---------- reads ----------

  /** The other transaction committed a version of the key that the snapshot of x, if it has one, shows. */
  predicate Shows(s: Node, x: TxnId, k: string) {
    var y := Info(s, Other(x));
    && y.status == Committed && y.endedAt.Some? && k in y.writes
    && (Info(s, x).snapshotAt.Some? ==> y.endedAt.value <= Info(s, x).snapshotAt.value)
  }

  /** The stamp of what a read finds when it does not find a version of its own. */
  function ReadStamp(s: Node, x: TxnId, k: string): int {
    if Shows(s, x, k) then Info(s, Other(x)).endedAt.value else if Seeded(s, k) then 0 else -1
  }

  lemma {:induction false} PickIs(c: seq<Version>, a: TxnInfo, b: TxnInfo, x: TxnId, snapshot: Option<nat>)
    requires Stamps(c, a, b)
    requires var i := if x == T1 then a else b; i.status != Committed
    ensures var r, y := Pick(SI, snapshot, x, c), if x == T1 then b else a;
      r.None? || r.value.txn != Some(x) ==>
        if y.status == Committed && HasBy(c, Other(x)) && y.endedAt.Some? && (snapshot.Some? ==> y.endedAt.value <= snapshot.value)
        then r.Some? && r.value.committedAt == y.endedAt
        else if c != [] && c[0].txn == None then r == Some(c[0]) else r == None
  {
    var n := |c| - 1;
    if n >= 0 {
      assert StampOk(c[n], n == 0, a, b);
      if !Visible(SI, snapshot, x, c[n]) {
        var front := c[..n];
        forall i | 0 <= i < n ensures StampOk(front[i], i == 0, a, b) { assert front[i] == c[i]; }
        PickIs(front, a, b, x, snapshot);
        assert forall i :: 0 <= i < n ==> front[i] == c[i];
      } else if c[n].txn == None {
        assert !HasBy(c, Other(x));
      }
    }
  }

  lemma PickStamp(s: Node, x: TxnId, k: string)
    requires s.level == SI && KeyOk(s, k) && !Done(s, x)
    ensures var r := Recorded(k, PickVersion(s, x, k)); r.from != Some(x) ==> StampOf(r) == ReadStamp(s, x, k)
  {
    var c := Chain(s.store, k);
    PickIs(c, s.t1, s.t2, x, Info(s, x).snapshotAt);
    if c != [] { assert StampOk(c[0], true, s.t1, s.t2); }
    assert Info(s, Other(x)).status == Committed ==> (k in Info(s, Other(x)).writes <==> HasBy(c, Other(x)));
  }

  /** What a node logs of reading: the records after the first n. */
  ghost predicate LogsFrom(s: Node, x: TxnId, n: nat, log: seq<ReadRecord>) {
    forall i :: n <= i < |log| && log[i].from != Some(x) ==> StampOf(log[i]) == ReadStamp(s, x, log[i].key)
  }

  /** The same node but for what x read, and whatever anomalies. */
  ghost predicate OnlyReads(s: Node, r: Node, x: TxnId) {
    && r == s.(t1 := r.t1, t2 := r.t2, anomalies := r.anomalies)
    && Info(r, Other(x)) == Info(s, Other(x))
    && Info(r, x) == Info(s, x).(readLog := Info(r, x).readLog)
    && Info(s, x).readLog <= Info(r, x).readLog
    && LogsFrom(s, x, |Info(s, x).readLog|, Info(r, x).readLog)
  }

  lemma ReadOnly(s: Node, x: TxnId, k: string)
    requires s.level == SI && KeyOk(s, k) && !Done(s, x)
    ensures OnlyReads(s, DoRead(s, x, k), x)
  {
    PickStamp(s, x, k);
  }

  lemma OnlyReadsThen(s: Node, r: Node, q: Node, x: TxnId)
    requires OnlyReads(s, r, x) && OnlyReads(r, q, x)
    ensures OnlyReads(s, q, x)
  {
    var n, log := |Info(r, x).readLog|, Info(q, x).readLog;
    forall i | |Info(s, x).readLog| <= i < |log| && log[i].from != Some(x)
      ensures StampOf(log[i]) == ReadStamp(s, x, log[i].key)
    {
      if i < n { assert log[i] == Info(r, x).readLog[i]; } else { assert ReadStamp(r, x, log[i].key) == ReadStamp(s, x, log[i].key); }
    }
  }

  lemma {:induction false} ReadAllOnly(s: Node, x: TxnId, keys: seq<string>)
    requires s.level == SI && !Done(s, x) && forall k :: KeyOk(s, k)
    ensures OnlyReads(s, ReadAll(s, x, keys).0, x)
  {
    if keys != [] {
      var front, key := keys[..|keys| - 1], keys[|keys| - 1];
      ReadAllOnly(s, x, front);
      var r := ReadAll(s, x, front).0;
      assert KeyOk(s, key);
      KeySame(s, r, key);
      ReadOnly(r, x, key);
      OnlyReadsThen(s, r, DoRead(r, x, key), x);
    }
  }

  /** A key's chain is right as long as the chain, the ends and the written keys stay. */
  lemma KeySame(s: Node, r: Node, k: string)
    requires KeyOk(s, k) && r.store == s.store
    requires Stands(s.t1, r.t1) && Stands(s.t2, r.t2)
    ensures KeyOk(r, k)
  {
    var c := Chain(s.store, k);
    forall i | 0 <= i < |c| ensures StampOk(c[i], i == 0, r.t1, r.t2) {
      assert StampOk(c[i], i == 0, s.t1, s.t2);
    }
  }

  predicate Stands(a: TxnInfo, b: TxnInfo) {
    && b.endedAt == a.endedAt && b.writes == a.writes
    && (b.status == Committed <==> a.status == Committed) && (b.status == Aborted <==> a.status == Aborted)
  }

  lemma ReadsSnapped(s: Node, r: Node, x: TxnId)
    requires Snapped(s) && OnlyReads(s, r, x)
    ensures Snapped(r)
  {
    forall k ensures KeyOk(r, k) {
      assert KeyOk(s, k);
      KeySame(s, r, k);
    }
    forall e | e in Info(r, x).readLog && e.from != Some(x) && Seeded(r, e.key) ensures StampOf(e) >= 0 {
      var i :| 0 <= i < |Info(r, x).readLog| && Info(r, x).readLog[i] == e;
      if i < |Info(s, x).readLog| { assert Info(s, x).readLog[i] == e; }
      assert InTime(Info(s, Other(x)), s.clock);
    }
  }

  // ---------- writes ----------

  lemma AppendSnapped(s: Node, x: TxnId, key: string, n: int)
    requires Snapped(s) && !Done(s, x)
    ensures Snapped(Append(s, x, key, n)) && forall k :: Seeded(Append(s, x, key, n), k) <==> Seeded(s, k)
  {
    var r, v := Append(s, x, key, n), Version(n, Some(x), None);
    forall k ensures KeyOk(r, k) && (Seeded(r, k) <==> Seeded(s, k)) {
      assert KeyOk(s, k);
      ChainPut(s.store, key, Chain(s.store, key) + [v], k);
      if k == key { AppendKeyOk(s, r, x, k, v); } else { KeyElsewhere(s, r, k); }
    }
    assert SeedsRead(r, T1) && SeedsRead(r, T2);
  }

  lemma AppendKeyOk(s: Node, r: Node, x: TxnId, k: string, v: Version)
    requires KeyOk(s, k) && !Done(s, x) && v.txn == Some(x) && v.committedAt == None
    requires Chain(r.store, k) == Chain(s.store, k) + [v] && k in Info(r, x).writes
    requires Info(r, Other(x)) == Info(s, Other(x))
    requires Info(r, x).status == Info(s, x).status
    ensures KeyOk(r, k) && (Seeded(r, k) <==> Seeded(s, k))
  {
    var c, d := Chain(s.store, k), Chain(r.store, k);
    forall i | 0 <= i < |d| ensures StampOk(d[i], i == 0, r.t1, r.t2) {
      if i < |c| { assert d[i] == c[i] && StampOk(c[i], i == 0, s.t1, s.t2); }
    }
    assert d[|c|] == v;
    if HasBy(c, Other(x)) {
      var i :| 0 <= i < |c| && c[i].txn == Some(Other(x));
      assert d[i] == c[i];
    }
  }

  lemma KeyElsewhere(s: Node, r: Node, k: string)
    requires KeyOk(s, k) && Chain(r.store, k) == Chain(s.store, k)
    requires r.t1.endedAt == s.t1.endedAt && r.t1.status == s.t1.status && (k in r.t1.writes <==> k in s.t1.writes)
    requires r.t2.endedAt == s.t2.endedAt && r.t2.status == s.t2.status && (k in r.t2.writes <==> k in s.t2.writes)
    ensures KeyOk(r, k)
  {
    var c := Chain(s.store, k);
    forall i | 0 <= i < |c| ensures StampOk(c[i], i == 0, r.t1, r.t2) {
      assert StampOk(c[i], i == 0, s.t1, s.t2);
    }
  }

  // ---------- ends of transactions ----------

  lemma {:induction false} WithoutStamps(x: TxnId, c: seq<Version>, a: TxnInfo, b: TxnInfo, a': TxnInfo, b': TxnInfo)
    requires Stamps(c, a, b) && (if x == T1 then b' == b && a.status != Committed else a' == a && b.status != Committed)
    ensures Stamps(Without(x, c), a', b') && |Without(x, c)| <= |c|
    ensures HasBy(Without(x, c), Other(x)) <==> HasBy(c, Other(x))
    ensures (Without(x, c) != [] && Without(x, c)[0].txn == None) <==> (c != [] && c[0].txn == None)
  {
    var n := |c| - 1;
    if n >= 0 {
      var front, v := c[..n], c[n];
      forall i | 0 <= i < n ensures StampOk(front[i], i == 0, a, b) { assert front[i] == c[i]; }
      WithoutStamps(x, front, a, b, a', b');
      assert StampOk(v, n == 0, a, b);
      var f, w := Without(x, front), Without(x, c);
      HasBySnoc(front, v, Other(x));
      assert c == front + [v];
      if Own(x, v) {
        assert w == f;
      } else {
        HasBySnoc(f, v, Other(x));
        assert w == f + [v] && StampOk(v, |f| == 0, a', b');
        forall i | 0 <= i < |w| ensures StampOk(w[i], i == 0, a', b') {
          if i < |f| { assert w[i] == f[i]; }
        }
        if f == [] && n > 0 { assert c[0] == front[0]; }
      }
    }
  }

  lemma HasBySnoc(c: seq<Version>, v: Version, z: TxnId)
    ensures HasBy(c + [v], z) <==> HasBy(c, z) || v.txn == Some(z)
  {
    var d := c + [v];
    if v.txn == Some(z) { assert d[|c|].txn == Some(z); }
    if HasBy(c, z) {
      var i :| 0 <= i < |c| && c[i].txn == Some(z);
      assert d[i].txn == Some(z);
    }
  }

  lemma AbortSnapped(s: Node, x: TxnId, reason: Reason)
    requires Snapped(s) && !Done(s, x)
    ensures Snapped(DoAbort(s, x, reason)) && forall k :: Seeded(DoAbort(s, x, reason), k) <==> Seeded(s, k)
  {
    var r := DoAbort(s, x, reason);
    forall k ensures KeyOk(r, k) && (Seeded(r, k) <==> Seeded(s, k)) {
      assert KeyOk(s, k);
      ChainAll(x, s.store, 0, k);
      WithoutStamps(x, Chain(s.store, k), s.t1, s.t2, r.t1, r.t2);
    }
    assert SeedsRead(r, T1) && SeedsRead(r, T2);
  }

  lemma SealSnapped(s: Node, x: TxnId)
    requires Snapped(s) && !Done(s, x)
    ensures Snapped(Seal(s, x)) && forall k :: Seeded(Seal(s, x), k) <==> Seeded(s, k)
  {
    var r := Seal(s, x);
    forall k ensures KeyOk(r, k) && (Seeded(r, k) <==> Seeded(s, k)) {
      assert KeyOk(s, k);
      ChainAll(x, s.store, s.clock + 1, k);
      StampedKeyOk(s, r, x, k);
    }
    assert SeedsRead(r, T1) && SeedsRead(r, T2);
  }

  lemma StampedKeyOk(s: Node, r: Node, x: TxnId, k: string)
    requires KeyOk(s, k) && !Done(s, x) && Chain(r.store, k) == Stamped(x, Chain(s.store, k), s.clock + 1)
    requires Info(r, Other(x)) == Info(s, Other(x)) && Info(r, x).writes == Info(s, x).writes
    requires Info(r, x).status == Committed && Info(r, x).endedAt == Some(s.clock + 1)
    ensures KeyOk(r, k) && (Seeded(r, k) <==> Seeded(s, k))
  {
    var c, d := Chain(s.store, k), Chain(r.store, k);
    forall i | 0 <= i < |d| ensures StampOk(d[i], i == 0, r.t1, r.t2) && d[i].txn == c[i].txn {
      assert StampOk(c[i], i == 0, s.t1, s.t2);
    }
    assert HasBy(d, T1) <==> HasBy(c, T1);
    assert HasBy(d, T2) <==> HasBy(c, T2);
  }

  // ---------- when a commit loses an update ----------

  /** The other transaction committed a version of k that the snapshot of x shows and its last read from elsewhere
      missed, and x wrote k as well. */
  ghost predicate Overtaken(s: Node, x: TxnId, k: string) {
    var i, y := Info(s, x), Info(s, Other(x));
    && k in i.writes && k in y.writes && y.status == Committed && y.endedAt.Some?
    && i.snapshotAt.Some? && y.endedAt.value <= i.snapshotAt.value
    && LastForeign(i.readLog, x, k).Some? && StampOf(LastForeign(i.readLog, x, k).value) < y.endedAt.value
  }

  /** The versions of others that are stamped past a time are those of the other transaction, if it ended past it. */
  lemma NewerIs(s: Node, x: TxnId, k: string, t: nat)
    requires KeyOk(s, k)
    ensures var y := Info(s, Other(x));
      NewerThan(x, Chain(s.store, k), t) <==> y.status == Committed && k in y.writes && y.endedAt.Some? && y.endedAt.value > t
  {
    var c, y := Chain(s.store, k), Info(s, Other(x));
    if NewerThan(x, c, t) {
      var i :| 0 <= i < |c| && c[i].txn != Some(x) && c[i].committedAt.Some? && c[i].committedAt.value > t;
      assert StampOk(c[i], i == 0, s.t1, s.t2);
      assert c[i].txn == Some(Other(x));
      assert HasBy(c, Other(x));
    }
    if y.status == Committed && k in y.writes && y.endedAt.Some? && y.endedAt.value > t {
      var i :| 0 <= i < |c| && c[i].txn == Some(Other(x));
      assert StampOk(c[i], i == 0, s.t1, s.t2);
    }
  }

  lemma {:induction false} ConflictIs(s: Node, x: TxnId, writes: seq<string>, snap: nat)
    ensures Conflict(s, x, writes, snap) == None <==> forall k :: k in writes ==> !NewerThan(x, Chain(s.store, k), snap)
  {
    if writes != [] {
      ConflictIs(s, x, writes[1..], snap);
      assert writes[0] in writes && forall k :: k in writes <==> k == writes[0] || k in writes[1..];
    }
  }

  lemma {:induction false} LastForeignIn(log: seq<ReadRecord>, x: TxnId, key: string)
    ensures var r := LastForeign(log, x, key); r.Some? ==> r.value in log && r.value.key == key && r.value.from != Some(x)
  {
    if log != [] { LastForeignIn(log[..|log| - 1], x, key); }
  }

  lemma ClobbersIs(s: Node, x: TxnId, k: string)
    requires Snapped(s) && !Done(s, x)
    ensures var r, y := LastForeign(Info(s, x).readLog, x, k), Info(s, Other(x));
      Clobbers(Seal(s, x), x, k) <==>
        r.Some? && y.status == Committed && k in y.writes && y.endedAt.Some? && StampOf(r.value) < y.endedAt.value
  {
    var r, y := LastForeign(Info(s, x).readLog, x, k), Info(s, Other(x));
    var c := Chain(s.store, k);
    assert KeyOk(s, k) && SeedsRead(s, x) && InTime(y, s.clock);
    LastForeignIn(Info(s, x).readLog, x, k);
    ChainAll(x, s.store, s.clock + 1, k);
    if r.Some? {
      NewerSealed(s, x, k, StampOf(r.value));
    }
  }

  lemma NewerSealed(s: Node, x: TxnId, k: string, stamp: int)
    requires KeyOk(s, k) && !Done(s, x) && InTime(Info(s, Other(x)), s.clock)
    requires Seeded(s, k) ==> stamp >= 0
    ensures var y := Info(s, Other(x));
      Newer(x, Stamped(x, Chain(s.store, k), s.clock + 1), stamp, s.clock + 1) <==>
        y.status == Committed && k in y.writes && y.endedAt.Some? && stamp < y.endedAt.value
  {
    var c, y := Chain(s.store, k), Info(s, Other(x));
    var d := Stamped(x, c, s.clock + 1);
    if Newer(x, d, stamp, s.clock + 1) {
      var i :| 0 <= i < |d| && d[i].txn != Some(x) && d[i].committedAt.Some? && stamp < d[i].committedAt.value < s.clock + 1;
      assert d[i] == c[i] && StampOk(c[i], i == 0, s.t1, s.t2);
      assert c[i].txn == Some(Other(x));
      assert HasBy(c, Other(x));
    }
    if y.status == Committed && k in y.writes && y.endedAt.Some? && stamp < y.endedAt.value {
      var i :| 0 <= i < |c| && c[i].txn == Some(Other(x));
      assert StampOk(c[i], i == 0, s.t1, s.t2);
      assert d[i] == c[i];
    }
  }

  lemma {:induction false} LostAre(s: Node, x: TxnId, writes: seq<string>, a: Anomaly)
    ensures a in LostUpdates(s, x, writes) <==>
      a.LostUpdate? && a.who == x && a.at == s.clock && a.key in writes && Clobbers(s, x, a.key)
  {
    if writes != [] {
      var front, k := writes[..|writes| - 1], writes[|writes| - 1];
      LostAre(s, x, front, a);
      assert a.LostUpdate? ==> (a.key in writes <==> a.key in front || a.key == k);
    }
  }

  /** A commit at the snapshot level records a lost update of exactly the keys on which it was overtaken. */
  lemma CommitLoses(s: Node, x: TxnId, a: Anomaly)
    requires Snapped(s) && !Done(s, x) && a.LostUpdate?
    ensures a in DoCommit(s, x).anomalies <==>
      a in s.anomalies || (a.who == x && a.at == s.clock + 1 && Overtaken(s, x, a.key))
  {
    var i, y := Info(s, x), Info(s, Other(x));
    var snap := SnapOf(i);
    ConflictIs(s, x, i.writes, snap);
    assert KeyOk(s, a.key) && InTime(y, s.clock);
    NewerIs(s, x, a.key, snap);
    ClobbersIs(s, x, a.key);
    if Conflict(s, x, i.writes, snap) == None {
      LostAre(Seal(s, x), x, i.writes, a);
      assert i.writes == Info(Seal(s, x), x).writes;
    } else {
      SomeConflict(s, x, snap);
    }
  }

  /** A conflict on any key means that the other transaction committed past the snapshot. */
  lemma SomeConflict(s: Node, x: TxnId, snap: nat)
    requires Snapped(s) && Conflict(s, x, Info(s, x).writes, snap) != None
    ensures var y := Info(s, Other(x)); y.status == Committed && y.endedAt.Some? && y.endedAt.value > snap
  {
    ConflictIs(s, x, Info(s, x).writes, snap);
    var k :| k in Info(s, x).writes && NewerThan(x, Chain(s.store, k), snap);
    assert KeyOk(s, k);
    NewerIs(s, x, k, snap);
  }

  // ---------- one step ----------

  lemma CommitSnapped(s: Node, x: TxnId)
    requires Snapped(s) && !Done(s, x)
    ensures Snapped(DoCommit(s, x)) && forall k :: Seeded(DoCommit(s, x), k) <==> Seeded(s, k)
  {
    var snap := SnapOf(Info(s, x));
    var conflict := Conflict(s, x, Info(s, x).writes, snap);
    if conflict.Some? {
      AbortSnapped(s, x, WriteConflict(conflict.value));
    } else {
      SealSnapped(s, x);
      DetectSnapped(Seal(s, x), x);
    }
  }

  lemma DetectSnapped(r: Node, x: TxnId)
    requires Snapped(r)
    ensures Snapped(Detect(r, x)) && forall k :: Seeded(Detect(r, x), k) <==> Seeded(r, k)
  {
    var q := Detect(r, x);
    forall k ensures KeyOk(q, k) { assert KeyOk(r, k); KeySame(r, q, k); }
    assert SeedsRead(q, T1) && SeedsRead(q, T2);
  }

  lemma BeginSnapped(s: Node, x: TxnId)
    requires Snapped(s) && !Done(s, x)
    ensures Snapped(DoBegin(s, x)) && forall k :: Seeded(DoBegin(s, x), k) <==> Seeded(s, k)
  {
    var r := DoBegin(s, x);
    forall k ensures KeyOk(r, k) { assert KeyOk(s, k); KeySame(s, r, k); }
    assert SeedsRead(r, T1) && SeedsRead(r, T2);
  }

  /** What a step of a live transaction other than its end leaves of the transactions. */
  ghost predicate Goes(s: Node, r: Node, x: TxnId) {
    && Snapped(r) && (forall k :: Seeded(r, k) <==> Seeded(s, k))
    && Info(r, Other(x)) == Info(s, Other(x))
    && Info(s, x).readLog <= Info(r, x).readLog
    && LogsFrom(s, x, |Info(s, x).readLog|, Info(r, x).readLog)
  }

  lemma AppendGoes(s: Node, r: Node, x: TxnId, key: string, n: int)
    requires Snapped(s) && !Done(s, x) && OnlyReads(s, r, x)
    ensures Goes(s, Append(r, x, key, n), x)
  {
    ReadsSnapped(s, r, x);
    AppendSnapped(r, x, key, n);
  }

  /** What a write reads, if anything, before it appends. */
  function BeforeWrite(s: Node, x: TxnId, key: string, value: WriteValue): (Node, int) {
    match value
    case Set(n) => (s, n)
    case Inc(n) =>
      var prior := LastRead(Info(s, x).readLog, key);
      if prior.Some? then (s, prior.value.value + n)
      else (DoRead(s, x, key), Recorded(key, PickVersion(s, x, key)).value + n)
  }

  lemma WriteIs(s: Node, x: TxnId, key: string, value: WriteValue, r: (Node, int))
    requires s.level == SI && KeyOk(s, key) && !Done(s, x) && r == BeforeWrite(s, x, key, value)
    ensures DoWrite(s, x, key, value) == Append(r.0, x, key, r.1) && OnlyReads(s, r.0, x)
  {
    ReadOnly(s, x, key);
  }

  lemma WriteGoes(s: Node, x: TxnId, key: string, value: WriteValue)
    requires Snapped(s) && !Done(s, x)
    ensures Goes(s, DoWrite(s, x, key, value), x)
  {
    assert KeyOk(s, key);
    var r := BeforeWrite(s, x, key, value);
    WriteIs(s, x, key, value, r);
    AppendGoes(s, r.0, x, key, r.1);
  }

  lemma EnsureGoes(s: Node, x: TxnId, keys: seq<string>, atLeast: int)
    requires Snapped(s) && !Done(s, x)
    ensures Goes(s, DoEnsure(s, x, keys, atLeast), x)
  {
    ReadAllOnly(s, x, keys);
    var r := ReadAll(s, x, keys);
    ReadsSnapped(s, r.0, x);
    if r.1 < atLeast { AbortSnapped(r.0, x, EnsureFailed(keys, r.1, atLeast)); }
  }

  lemma StepGoes(s: Node, step: Step)
    requires Snapped(s)
    ensures Goes(s, RunStep(s, step), step.txn)
  {
    var x := step.txn;
    if Done(s, x) {
      SkipGoes(s, x);
    } else {
      match step.op {
        case Begin => { BeginSnapped(s, x); }
        case Read(key) => {
          assert KeyOk(s, key);
          ReadOnly(s, x, key);
          ReadsSnapped(s, DoRead(s, x, key), x);
        }
        case Write(key, value) => { WriteGoes(s, x, key, value); }
        case Ensure(keys, atLeast) => { EnsureGoes(s, x, keys, atLeast); }
        case Commit => { CommitSnapped(s, x); }
        case Abort => { AbortSnapped(s, x, RolledBack); }
      }
    }
  }

  lemma SkipGoes(s: Node, x: TxnId)
    requires Snapped(s)
    ensures Goes(s, s.(skippedOps := s.skippedOps + 1), x)
  {
    var r := s.(skippedOps := s.skippedOps + 1);
    forall k ensures KeyOk(r, k) { assert KeyOk(s, k); KeySame(s, r, k); }
    assert SeedsRead(r, T1) && SeedsRead(r, T2);
  }

  lemma {:induction false} SeedStamps(initial: seq<(string, int)>, k: string)
    ensures Stamps(Chain(Seeds(initial), k), FRESH, FRESH)
    ensures !HasBy(Chain(Seeds(initial), k), T1) && !HasBy(Chain(Seeds(initial), k), T2)
  {
    if initial != [] {
      var last := initial[|initial| - 1];
      SeedStamps(initial[..|initial| - 1], k);
      ChainPut(Seeds(initial[..|initial| - 1]), last.0, [Version(last.1, None, Some(0))], k);
    }
  }

  lemma InitSnapped(initial: seq<(string, int)>)
    ensures Snapped(Init(SI, initial))
  {
    forall k ensures KeyOk(Init(SI, initial), k) { SeedStamps(initial, k); }
  }
}
