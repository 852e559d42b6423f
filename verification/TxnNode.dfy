/** The transaction node as it runs: fields updated in place, proved against the functions of TxnEngine. */
module TxnNode {
  import opened TxnEngine

  class Engine {
    const level: Level
    var store: Store
    var t1: TxnInfo
    var t2: TxnInfo
    var queue: seq<Step>
    var activeSer: Option<TxnId>
    var anomalies: seq<Anomaly>
    var commits: nat
    var aborts: nat
    var queuedOps: nat
    var skippedOps: nat
    var clock: nat

    ghost function View(): Node
      reads this
    {
      Node(level, store, t1, t2, queue, activeSer, anomalies, commits, aborts, queuedOps, skippedOps, clock)
    }

    constructor (level: Level, initial: seq<(string, int)>)
      ensures View() == Init(level, initial)
    {
      this.level := level;
      store := [];
      t1, t2, queue, activeSer, anomalies := FRESH, FRESH, [], None, [];
      commits, aborts, queuedOps, skippedOps, clock := 0, 0, 0, 0, 0;
      new;
      for i := 0 to |initial|
        invariant View() == Init(level, initial[..i])
      {
        assert initial[..i + 1][..i] == initial[..i];
        store := PutChain(store, initial[i].0, [Version(initial[i].1, None, Some(0))]);
      }
      assert initial[..|initial|] == initial;
    }

    method GetInfo(x: TxnId) returns (i: TxnInfo)
      ensures i == Info(View(), x)
    {
      i := if x == T1 then t1 else t2;
    }

    method SetInfo(x: TxnId, i: TxnInfo)
      modifies this
      ensures View() == WithInfo(old(View()), x, i)
    {
      if x == T1 { t1 := i; } else { t2 := i; }
    }

    /** Walks the chain from its newest version. */
    method FindVersion(reader: TxnId, key: string) returns (v: Option<Version>)
      ensures v == PickVersion(View(), reader, key)
    {
      var chain := Chain(store, key);
      var info := GetInfo(reader);
      var i := |chain|;
      assert chain[..i] == chain;
      while i > 0
        invariant 0 <= i <= |chain|
        invariant Pick(level, info.snapshotAt, reader, chain[..i]) == PickVersion(View(), reader, key)
      {
        assert chain[..i][..i - 1] == chain[..i - 1];
        i := i - 1;
        var c := chain[i];
        if c.txn == Some(reader) && c.committedAt == None { return Some(c); }
        if level == RU { return Some(c); }
        if c.committedAt == None { continue; }
        if level == SI && info.snapshotAt.Some? && c.committedAt.value > info.snapshotAt.value { continue; }
        return Some(c);
      }
      return None;
    }

    method ReadKey(x: TxnId, key: string) returns (value: int)
      modifies this
      ensures View() == DoRead(old(View()), x, key)
      ensures value == Recorded(key, PickVersion(old(View()), x, key)).value
    {
      var v := FindVersion(x, key);
      var record := if v.Some? then ReadRecord(key, v.value.value, v.value.committedAt, v.value.txn)
                    else ReadRecord(key, 0, None, None);
      var t := GetInfo(x);
      SetInfo(x, t.(readLog := t.readLog + [record]));
      if v.Some? && v.value.committedAt == None && v.value.txn != Some(x) {
        anomalies := anomalies + [DirtyRead(x, v.value, key, clock)];
      }
      value := record.value;
    }

    method FindRead(log: seq<ReadRecord>, key: string) returns (r: Option<ReadRecord>)
      ensures r == LastRead(log, key)
    {
      var i := |log|;
      assert log[..i] == log;
      while i > 0
        invariant 0 <= i <= |log| && LastRead(log[..i], key) == LastRead(log, key)
      {
        assert log[..i][..i - 1] == log[..i - 1];
        i := i - 1;
        if log[i].key == key { return Some(log[i]); }
      }
      return None;
    }

    method Push(x: TxnId, key: string, n: int)
      modifies this
      ensures View() == Append(old(View()), x, key, n)
    {
      var chain := Chain(store, key);
      store := PutChain(store, key, chain + [Version(n, Some(x), None)]);
      var t := GetInfo(x);
      if key !in t.writes { SetInfo(x, t.(writes := t.writes + [key])); }
    }

    method WriteKey(x: TxnId, key: string, value: WriteValue)
      modifies this
      ensures View() == DoWrite(old(View()), x, key, value)
    {
      match value {
        case Set(n) => { Push(x, key, n); }
        case Inc(n) => {
          var t := GetInfo(x);
          var prior := FindRead(t.readLog, key);
          if prior.Some? {
            Push(x, key, prior.value.value + n);
          } else {
            var base := ReadKey(x, key);
            Push(x, key, base + n);
          }
        }
      }
    }

    method DropUncommitted(x: TxnId)
      modifies this`store
      ensures store == AllWithout(x, old(store))
    {
      var kept: Store := [];
      for i := 0 to |store|
        invariant store == old(store) && kept + AllWithout(x, store[i..]) == AllWithout(x, store)
      {
        var slot := Slot(store[i].key, Without(x, store[i].versions));
        assert kept + ([slot] + AllWithout(x, store[i + 1..])) == (kept + [slot]) + AllWithout(x, store[i + 1..]);
        kept := kept + [slot];
      }
      store := kept;
    }

    method AbortTxn(x: TxnId, reason: Reason)
      modifies this
      ensures View() == DoAbort(old(View()), x, reason)
    {
      DropUncommitted(x);
      var t := GetInfo(x);
      SetInfo(x, t.(status := Aborted, endedAt := Some(clock), abortReason := Some(reason)));
      aborts := aborts + 1;
    }

    method EnsureAtLeast(x: TxnId, keys: seq<string>, atLeast: int)
      modifies this
      ensures View() == DoEnsure(old(View()), x, keys, atLeast)
    {
      var sum := 0;
      assert keys[..0] == [];
      for i := 0 to |keys|
        invariant (View(), sum) == ReadAll(old(View()), x, keys[..i])
      {
        assert keys[..i + 1][..i] == keys[..i];
        var n := ReadKey(x, keys[i]);
        sum := sum + n;
      }
      assert keys[..|keys|] == keys;
      if sum < atLeast { AbortTxn(x, EnsureFailed(keys, sum, atLeast)); }
    }

    method FindForeign(log: seq<ReadRecord>, x: TxnId, key: string) returns (r: Option<ReadRecord>)
      ensures r == LastForeign(log, x, key)
    {
      var i := |log|;
      assert log[..i] == log;
      while i > 0
        invariant 0 <= i <= |log| && LastForeign(log[..i], x, key) == LastForeign(log, x, key)
      {
        assert log[..i][..i - 1] == log[..i - 1];
        i := i - 1;
        if log[i].key == key && log[i].from != Some(x) { return Some(log[i]); }
      }
      return None;
    }

    method IsClobbered(x: TxnId, key: string) returns (clobbered: bool)
      ensures clobbered == Clobbers(View(), x, key)
    {
      var t := GetInfo(x);
      var lastRead := FindForeign(t.readLog, x, key);
      if lastRead.None? { return false; }
      var readStamp := if lastRead.value.stamp.Some? then lastRead.value.stamp.value else -1;
      var chain := Chain(store, key);
      for i := 0 to |chain|
        invariant forall j :: 0 <= j < i ==>
          !(chain[j].txn != Some(x) && chain[j].committedAt.Some? && readStamp < chain[j].committedAt.value < clock)
      {
        var v := chain[i];
        if v.txn != Some(x) && v.committedAt.Some? && v.committedAt.value > readStamp && v.committedAt.value < clock {
          return true;
        }
      }
      return false;
    }

    method DetectLostUpdates(x: TxnId)
      modifies this`anomalies
      ensures anomalies == old(anomalies) + LostUpdates(old(View()), x, Info(old(View()), x).writes)
    {
      var t := GetInfo(x);
      ghost var was := View();
      assert t.writes[..0] == [];
      for i := 0 to |t.writes|
        invariant View() == was.(anomalies := anomalies)
        invariant anomalies == was.anomalies + LostUpdates(was, x, t.writes[..i])
      {
        assert t.writes[..i + 1][..i] == t.writes[..i];
        var clobbered := IsClobbered(x, t.writes[i]);
        if clobbered { anomalies := anomalies + [LostUpdate(x, t.writes[i], clock)]; }
      }
      assert t.writes[..|t.writes|] == t.writes;
    }

    method FindConflict(x: TxnId, writes: seq<string>, snap: nat) returns (key: Option<string>)
      ensures key == Conflict(View(), x, writes, snap)
    {
      for i := 0 to |writes|
        invariant Conflict(View(), x, writes, snap) == Conflict(View(), x, writes[i..], snap)
      {
        var chain := Chain(store, writes[i]);
        var conflict := false;
        for j := 0 to |chain|
          invariant conflict == exists m :: 0 <= m < j && chain[m].txn != Some(x) && chain[m].committedAt.Some?
                                            && chain[m].committedAt.value > snap
        {
          if chain[j].txn != Some(x) && chain[j].committedAt.Some? && chain[j].committedAt.value > snap { conflict := true; }
        }
        if conflict { return Some(writes[i]); }
      }
      return None;
    }

    method StampOwn(x: TxnId)
      modifies this`store
      ensures store == AllStamped(x, old(store), clock)
    {
      var stamped: Store := [];
      for i := 0 to |store|
        invariant store == old(store) && stamped + AllStamped(x, store[i..], clock) == AllStamped(x, store, clock)
      {
        var slot := Slot(store[i].key, Stamped(x, store[i].versions, clock));
        assert stamped + ([slot] + AllStamped(x, store[i + 1..], clock)) == (stamped + [slot]) + AllStamped(x, store[i + 1..], clock);
        stamped := stamped + [slot];
      }
      store := stamped;
    }

    method SealTxn(x: TxnId)
      modifies this
      ensures View() == Seal(old(View()), x)
    {
      clock := clock + 1;
      StampOwn(x);
      var t := GetInfo(x);
      SetInfo(x, t.(status := Committed, endedAt := Some(clock)));
      commits := commits + 1;
    }

    method DetectAnomalies(x: TxnId)
      modifies this`anomalies
      ensures View() == Detect(old(View()), x)
    {
      DetectLostUpdates(x);
      var me := GetInfo(x);
      var other := GetInfo(Other(x));
      if Skewed(me, other) { anomalies := anomalies + [WriteSkew(x, Other(x), clock)]; }
    }

    method CommitTxn(x: TxnId)
      modifies this
      ensures View() == DoCommit(old(View()), x)
    {
      if level == SI {
        var t := GetInfo(x);
        var snap := if t.snapshotAt.Some? then t.snapshotAt.value else 0;
        var conflict := FindConflict(x, t.writes, snap);
        if conflict.Some? {
          AbortTxn(x, WriteConflict(conflict.value));
          return;
        }
      }
      SealTxn(x);
      DetectAnomalies(x);
    }

    method BeginTxn(x: TxnId)
      modifies this
      ensures View() == DoBegin(old(View()), x)
    {
      clock := clock + 1;
      var t := GetInfo(x);
      t := t.(status := Active, beganAt := Some(clock));
      if level == SI { t := t.(snapshotAt := Some(clock)); }
      SetInfo(x, t);
      if level == SER { activeSer := Some(x); }
    }

    method ApplyOp(x: TxnId, op: Op)
      modifies this
      ensures View() == Apply(old(View()), x, op)
    {
      match op {
        case Begin => { BeginTxn(x); }
        case Read(key) => { var n := ReadKey(x, key); }
        case Write(key, value) => { WriteKey(x, key, value); }
        case Ensure(keys, atLeast) => { EnsureAtLeast(x, keys, atLeast); }
        case Commit => { CommitTxn(x); }
        case Abort => { AbortTxn(x, RolledBack); }
      }
      var t := GetInfo(x);
      if level == SER && activeSer == Some(x) && t.status in {Committed, Aborted} { activeSer := None; }
    }

    /** Replays parked steps until the queue is empty or its head must wait. */
    method Drain()
      modifies this
      ensures View() == DrainQueue(old(View()))
    {
      ghost var goal := DrainQueue(View());
      while |queue| > 0
        invariant DrainQueue(View()) == goal
        decreases |queue|
      {
        var head := queue[0];
        var ht := GetInfo(head.txn);
        if ht.status in {Committed, Aborted} {
          queue, skippedOps := queue[1..], skippedOps + 1;
          continue;
        }
        if activeSer != None && activeSer != Some(head.txn) { return; }
        queue := queue[1..];
        ApplyOp(head.txn, head.op);
      }
    }

    method TakeStep(step: Step)
      modifies this
      ensures View() == RunStep(old(View()), step)
    {
      var t := GetInfo(step.txn);
      if t.status in {Committed, Aborted} {
        skippedOps := skippedOps + 1;
        return;
      }
      if level != SER {
        ApplyOp(step.txn, step.op);
        return;
      }
      var admissible := activeSer == Some(step.txn) || (activeSer == None && step.op == Begin);
      if !admissible {
        queue, queuedOps := queue + [step], queuedOps + 1;
        if t.status == Idle { SetInfo(step.txn, t.(status := Waiting)); }
        return;
      }
      ApplyOp(step.txn, step.op);
      Drain();
    }

    method FindCommitted(key: string) returns (value: Option<int>)
      ensures value == CommittedValue(View(), key)
    {
      var chain := Chain(store, key);
      var best: Option<Version> := None;
      assert chain[..0] == [];
      for i := 0 to |chain|
        invariant best == Latest(chain[..i]) && (best.Some? ==> best.value.committedAt.Some?)
      {
        assert chain[..i + 1][..i] == chain[..i];
        var v := chain[i];
        if v.committedAt == None { continue; }
        if best.None? || v.committedAt.value >= best.value.committedAt.value { best := Some(v); }
      }
      assert chain[..|chain|] == chain;
      value := if best.Some? then Some(best.value.value) else None;
    }
  }
}
