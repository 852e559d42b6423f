/** The LSM engine: a write-ahead log, a sorted memtable, immutable runs behind bloom filters, flushes and
    compactions on timers, and the storage faults. */
module Lsm {
  import opened StorageShared

  /** The two bit positions of a key; any deterministic function will do. */
  type Hash = Key -> (nat, nat)

  datatype WalRec = WalRec(tag: nat, key: Key, val: Option<Val>)
  datatype Run = Run(level: nat, entries: seq<Entry>, bloom: set<nat>, torn: bool)
  datatype Phase = Idle | Flushing | Compacting | Recovering

  datatype State = State(
    memtable: seq<Entry>, wal: seq<WalRec>, walAckSeq: nat, runs: seq<Run>, phase: Phase,
    diskReads: nat, diskWrites: nat, bytesWritten: nat, userBytes: nat,
    lastReadCost: nat, bloomSkips: nat, diskFull: bool)

  datatype Timer = FlushPhase2 | Compact | SplitCommit
  datatype Fault = CrashMidWrite | TornWrite | DiskFull | Recover
  datatype Event = Put(key: Key, val: Val) | Delete(key: Key) | Get(key: Key) | Fires(timer: Timer) | Fails(fault: Fault) | Nothing
  datatype Effect = SetTimer(delay: nat, timer: Timer)

  function Init(): State {
    State([], [], 0, [], Idle, 0, 0, 0, 0, 0, 0, false)
  }

  // ---------- the pieces of the reducer ----------

  function Records(wal: seq<WalRec>): seq<Entry> {
    if wal == [] then [] else Records(wal[..|wal| - 1]) + [Entry(wal[|wal| - 1].key, wal[|wal| - 1].val)]
  }

  /** The records of keys that a list of entries does not hold. */
  function Keep(wal: seq<WalRec>, flushed: seq<Entry>): seq<WalRec> {
    if wal == [] then []
    else Keep(wal[..|wal| - 1], flushed) + if Find(flushed, wal[|wal| - 1].key).None? then [wal[|wal| - 1]] else []
  }

  function Bits(h: Hash, s: seq<Entry>): set<nat> {
    if s == [] then {} else Bits(h, s[..|s| - 1]) + {h(s[|s| - 1].key).0, h(s[|s| - 1].key).1}
  }

  predicate MightContain(h: Hash, bloom: set<nat>, k: Key) {
    h(k).0 in bloom && h(k).1 in bloom
  }

  function Flatten(runs: seq<Run>): seq<Entry> {
    if runs == [] then [] else Flatten(runs[..|runs| - 1]) + runs[|runs| - 1].entries
  }

  /** All the entries of some runs, oldest run first, a later one for a key replacing an earlier one. */
  function Merged(runs: seq<Run>): seq<Entry> {
    Collect(Flatten(runs))
  }

  function OfLevel(runs: seq<Run>, level: nat): seq<Run> {
    if runs == [] then []
    else OfLevel(runs[..|runs| - 1], level) + if runs[|runs| - 1].level == level then [runs[|runs| - 1]] else []
  }

  /** Tombstones dropped. */
  function Live(s: seq<Entry>): seq<Entry> {
    if s == [] then [] else if s[0].val.Some? then [s[0]] + Live(s[1..]) else Live(s[1..])
  }

  function ToTable(h: Hash, level: nat, s: seq<Entry>): Run {
    Run(level, s, Bits(h, s), false)
  }

  function ApplyWrite(s: State, k: Key, v: Option<Val>): State {
    s.(wal := s.wal + [WalRec(s.walAckSeq + 1, k, v)], walAckSeq := s.walAckSeq + 1,
       memtable := Upsert(s.memtable, Entry(k, v)), diskWrites := s.diskWrites + 1,
       bytesWritten := s.bytesWritten + BYTES_PER_ENTRY, userBytes := s.userBytes + BYTES_PER_ENTRY)
  }

  function MaybeFlush(s: State): (State, seq<Effect>) {
    if s.phase == Idle && |s.memtable| > MEMTABLE_CAP
    then (s.(phase := Flushing), [SetTimer(10, FlushPhase2)])
    else (s, [])
  }

  function FlushCommit(h: Hash, s: State): State {
    if s.memtable == [] then s.(phase := Idle)
    else s.(runs := s.runs + [ToTable(h, 0, s.memtable)], memtable := [], wal := Keep(s.wal, s.memtable),
            bytesWritten := s.bytesWritten + |s.memtable| * BYTES_PER_ENTRY,
            diskWrites := s.diskWrites + 1, phase := Idle)
  }

  predicate Compacts(s: State) {
    !s.diskFull && OfLevel(s.runs, 0) != []
  }

  function CompactRuns(h: Hash, s: State): State {
    if !Compacts(s) then s.(phase := Idle)
    else
      var merged := Live(Merged(OfLevel(s.runs, 1) + OfLevel(s.runs, 0)));
      s.(runs := [ToTable(h, 1, merged)], bytesWritten := s.bytesWritten + |merged| * BYTES_PER_ENTRY,
         diskWrites := s.diskWrites + 1, phase := Idle)
  }

  function MaybeCompact(s: State): (State, seq<Effect>) {
    if s.phase == Idle && |OfLevel(s.runs, 0)| >= L0_TRIGGER
    then (s.(phase := Compacting), [SetTimer(15, Compact)])
    else (s, [])
  }

  /** What a point read costs and finds in the first n runs, searched from the newest. */
  datatype Probe = Probe(cost: nat, skips: nat, hit: Option<Option<Val>>)

  function Search(h: Hash, runs: seq<Run>, k: Key): Probe {
    if runs == [] then Probe(0, 0, None)
    else
      var t, older := runs[|runs| - 1], Search(h, runs[..|runs| - 1], k);
      if !MightContain(h, t.bloom, k) then older.(skips := older.skips + 1)
      else if Find(t.entries, k).Some? then Probe(1, 0, Find(t.entries, k))
      else older.(cost := older.cost + 1)
  }

  function Flat(o: Option<Option<Val>>): Option<Val> {
    if o.Some? then o.value else None
  }

  /** The value a point read returns. */
  function Answer(h: Hash, s: State, k: Key): Option<Val> {
    if Find(s.memtable, k).Some? then Find(s.memtable, k).value else Flat(Search(h, s.runs, k).hit)
  }

  function AfterGet(h: Hash, s: State, k: Key): State {
    if Find(s.memtable, k).Some? then s.(lastReadCost := 1, diskReads := s.diskReads + 1)
    else
      var p := Search(h, s.runs, k);
      s.(lastReadCost := p.cost, diskReads := s.diskReads + p.cost, bloomSkips := s.bloomSkips + p.skips)
  }

  function Replayed(s: State): State {
    s.(memtable := Collect(Records(s.wal)), phase := Idle)
  }

  function Tear(h: Hash, s: State): State {
    if s.runs == [] then
      if s.memtable == [] then s
      else s.(memtable := [], runs := [ToTable(h, 0, s.memtable[..|s.memtable| - 1]).(torn := true)])
    else
      var last := |s.runs| - 1;
      var t := s.runs[last];
      if t.entries == [] then s.(runs := s.runs[last := t.(torn := true)])
      else
        var dropped := t.entries[|t.entries| - 1];
        s.(runs := s.runs[last := t.(entries := t.entries[..|t.entries| - 1], torn := true)],
           wal := [WalRec(s.walAckSeq + 1, dropped.key, dropped.val)] + s.wal, walAckSeq := s.walAckSeq + 1)
  }

  function Repaired(h: Hash, t: Run, wal: seq<WalRec>): Run {
    if t.torn then ToTable(h, t.level, Merged([t, t.(entries := Records(wal))])) else t
  }

  function RepairAll(h: Hash, runs: seq<Run>, wal: seq<WalRec>): seq<Run> {
    if runs == [] then [] else RepairAll(h, runs[..|runs| - 1], wal) + [Repaired(h, runs[|runs| - 1], wal)]
  }

  function ApplyFault(h: Hash, s: State, f: Fault): State {
    match f
    case CrashMidWrite => Replayed(s.(memtable := [], phase := Recovering))
    case DiskFull => s.(diskFull := true)
    case TornWrite => Tear(h, s)
    case Recover => s.(diskFull := false, runs := RepairAll(h, s.runs, s.wal))
  }

  function Reduce(h: Hash, s: State, e: Event): (State, seq<Effect>) {
    match e
    case Fails(f) => (ApplyFault(h, s, f), [])
    case Fires(FlushPhase2) => MaybeCompact(FlushCommit(h, s))
    case Fires(Compact) => (CompactRuns(h, s), [])
    case Get(k) => (AfterGet(h, s, k), [])
    case Put(k, v) => MaybeFlush(ApplyWrite(s, k, Some(v)))
    case Delete(k) => MaybeFlush(ApplyWrite(s, k, None))
    case _ => (s, [])
  }

  /** The state after a history of events, and the map its user should see. */
  function After(h: Hash, es: seq<Event>): State {
    if es == [] then Init() else Reduce(h, After(h, es[..|es| - 1]), es[|es| - 1]).0
  }

  function Ask(m: Table, e: Event): Table {
    match e
    case Put(k, v) => Write(m, k, Some(v))
    case Delete(k) => Write(m, k, None)
    case _ => m
  }

  function Asked(es: seq<Event>): Table {
    if es == [] then map[] else Ask(Asked(es[..|es| - 1]), es[|es| - 1])
  }

  // ---------- the loops of the engine ----------

  method BuildBloom(h: Hash, entries: seq<Entry>) returns (bits: set<nat>)
    ensures bits == Bits(h, entries)
  {
    bits := {};
    for i := 0 to |entries|
      invariant bits == Bits(h, entries[..i])
    {
      assert entries[..i + 1][..i] == entries[..i];
      bits := bits + {h(entries[i].key).0};
      bits := bits + {h(entries[i].key).1};
    }
    assert entries[..|entries|] == entries;
  }

  /** Setting a key of an insertion-ordered map. */
  function SetKey(m: seq<Entry>, e: Entry): seq<Entry> {
    if m == [] then [e] else if m[0].key == e.key then [e] + m[1..] else [m[0]] + SetKey(m[1..], e)
  }

  lemma {:induction false} SetKeyFind(m: seq<Entry>, e: Entry, x: Key)
    ensures Find(SetKey(m, e), x) == if x == e.key then Some(e.val) else Find(m, x)
  {
    if m != [] { SetKeyFind(m[1..], e, x); }
  }

  lemma {:induction false} SetKeyKeys(m: seq<Entry>, e: Entry)
    ensures forall f :: f in SetKey(m, e) ==> f == e || f in m
  {
    if m != [] {
      SetKeyKeys(m[1..], e);
      assert m == [m[0]] + m[1..];
    }
  }

  lemma {:induction false} SetKeyUnique(m: seq<Entry>, e: Entry)
    requires Unique(m)
    ensures Unique(SetKey(m, e))
  {
    if m != [] {
      SetKeyUnique(m[1..], e);
      SetKeyKeys(m[1..], e);
      assert forall f :: f in m[1..] ==> f.key != m[0].key;
    }
  }

  ghost predicate Gathers(m: seq<Entry>, s: seq<Entry>) {
    Unique(m) && forall k :: Find(m, k) == FindLast(s, k)
  }

  lemma GathersMore(m: seq<Entry>, s: seq<Entry>, e: Entry)
    requires Gathers(m, s)
    ensures Gathers(SetKey(m, e), s + [e])
  {
    SetKeyUnique(m, e);
    forall k ensures Find(SetKey(m, e), k) == FindLast(s + [e], k) {
      SetKeyFind(m, e, k);
      assert (s + [e])[..|s|] == s;
    }
  }

  lemma GathersSorted(m: seq<Entry>, s: seq<Entry>)
    requires Gathers(m, s)
    ensures Sort(m) == Collect(s)
  {
    SortKeeps(m, 0.0);
    CollectKeeps(s, 0.0);
    forall k ensures Find(Sort(m), k) == Find(Collect(s), k) {
      SortKeeps(m, k);
      CollectKeeps(s, k);
    }
    SameFinds(Sort(m), Collect(s));
  }

  method MergeRuns(runs: seq<Run>) returns (entries: seq<Entry>)
    ensures entries == Merged(runs)
  {
    var m: seq<Entry> := [];
    for i := 0 to |runs|
      invariant Gathers(m, Flatten(runs[..i]))
    {
      ghost var before, added := Flatten(runs[..i]), runs[i].entries;
      assert before + added[..0] == before;
      for j := 0 to |runs[i].entries|
        invariant Gathers(m, before + added[..j])
      {
        GathersMore(m, before + added[..j], added[j]);
        m := SetKey(m, runs[i].entries[j]);
        assert before + added[..j + 1] == before + added[..j] + [added[j]];
      }
      assert runs[..i + 1][..i] == runs[..i] && added[..|added|] == added;
    }
    assert runs[..|runs|] == runs;
    GathersSorted(m, Flatten(runs));
    entries := Sort(m);
  }

  method LsmGet(h: Hash, s: State, k: Key) returns (s': State, value: Option<Val>)
    ensures s' == AfterGet(h, s, k) && value == Answer(h, s, k)
  {
    if Find(s.memtable, k).Some? {
      return s.(lastReadCost := 1, diskReads := s.diskReads + 1), Find(s.memtable, k).value;
    }
    var cost, skips, i := 0, 0, |s.runs|;
    ghost var whole := Search(h, s.runs, k);
    assert s.runs[..i] == s.runs;
    while i > 0
      invariant 0 <= i <= |s.runs|
      invariant var rest := Search(h, s.runs[..i], k);
                whole == Probe(cost + rest.cost, skips + rest.skips, rest.hit)
    {
      i := i - 1;
      var t := s.runs[i];
      assert s.runs[..i + 1][..i] == s.runs[..i];
      if !MightContain(h, t.bloom, k) {
        skips := skips + 1;
      } else {
        cost := cost + 1;
        if Find(t.entries, k).Some? {
          return s.(lastReadCost := cost, diskReads := s.diskReads + cost, bloomSkips := s.bloomSkips + skips),
                 Find(t.entries, k).value;
        }
      }
    }
    return s.(lastReadCost := cost, diskReads := s.diskReads + cost, bloomSkips := s.bloomSkips + skips), None;
  }

  method RecoverFromWal(s: State) returns (s': State)
    ensures s' == Replayed(s)
  {
    var memtable: seq<Entry> := [];
    for i := 0 to |s.wal|
      invariant memtable == Collect(Records(s.wal[..i]))
    {
      assert s.wal[..i + 1][..i] == s.wal[..i];
      CollectSnoc(Records(s.wal[..i]), Entry(s.wal[i].key, s.wal[i].val));
      memtable := Upsert(memtable, Entry(s.wal[i].key, s.wal[i].val));
    }
    assert s.wal[..|s.wal|] == s.wal;
    s' := s.(memtable := memtable, phase := Idle);
  }

  lemma CollectSnoc(s: seq<Entry>, e: Entry)
    ensures Collect(s + [e]) == Upsert(Collect(s), e)
  {
    assert (s + [e])[..|s|] == s;
  }

  // ---------- the views of a state ----------

  /** The newest run's entry for k. */
  function View(runs: seq<Run>, k: Key): Option<Option<Val>> {
    if runs == [] then None
    else if Find(runs[|runs| - 1].entries, k).Some? then Find(runs[|runs| - 1].entries, k)
    else View(runs[..|runs| - 1], k)
  }

  function Journal(wal: seq<WalRec>, k: Key): Option<Option<Val>> {
    FindLast(Records(wal), k)
  }

  /** The last record of k, else the newest run holding it. */
  function Durable(wal: seq<WalRec>, runs: seq<Run>, k: Key): Option<Val> {
    Flat(if Journal(wal, k).Some? then Journal(wal, k) else View(runs, k))
  }

  ghost predicate RunOk(h: Hash, t: Run) {
    Ascending(t.entries) && forall e :: e in t.entries ==> MightContain(h, t.bloom, e.key)
  }

  ghost predicate RunsOk(h: Hash, runs: seq<Run>) {
    forall i :: 0 <= i < |runs| ==> RunOk(h, runs[i])
  }

  /** Only the oldest run can be the compacted one. */
  ghost predicate Levelled(runs: seq<Run>) {
    forall i :: 0 <= i < |runs| ==> runs[i].level <= if i == 0 then 1 else 0
  }

  ghost predicate Logged(memtable: seq<Entry>, wal: seq<WalRec>, k: Key) {
    Find(memtable, k).Some? ==> Find(memtable, k) == Journal(wal, k)
  }

  ghost predicate Inv(h: Hash, s: State) {
    && RunsOk(h, s.runs) && Levelled(s.runs) && Ascending(s.memtable)
    && forall k {:trigger Logged(s.memtable, s.wal, k)} :: Logged(s.memtable, s.wal, k)
  }

  // ---------- laws of the pieces ----------

  lemma JournalSnoc(wal: seq<WalRec>, r: WalRec, k: Key)
    ensures Journal(wal + [r], k) == if k == r.key then Some(r.val) else Journal(wal, k)
  {
    assert (wal + [r])[..|wal|] == wal;
    assert (Records(wal) + [Entry(r.key, r.val)])[..|Records(wal)|] == Records(wal);
  }

  lemma {:induction false} RecordsCons(r: WalRec, wal: seq<WalRec>)
    ensures Records([r] + wal) == [Entry(r.key, r.val)] + Records(wal)
  {
    if wal == [] {
      assert [r] + wal == [r] && [r][..0] == [];
      assert Records([r]) == Records([]) + [Entry(r.key, r.val)];
    } else {
      RecordsCons(r, wal[..|wal| - 1]);
      assert ([r] + wal)[..|wal|] == [r] + wal[..|wal| - 1];
    }
  }

  lemma JournalCons(r: WalRec, wal: seq<WalRec>, k: Key)
    ensures Journal([r] + wal, k)
         == if Journal(wal, k).Some? then Journal(wal, k) else if k == r.key then Some(r.val) else None
  {
    RecordsCons(r, wal);
    var one := [Entry(r.key, r.val)];
    FindLastConcat(one, Records(wal), k);
    assert one[..0] == [];
  }

  lemma {:induction false} KeepJournal(wal: seq<WalRec>, flushed: seq<Entry>, k: Key)
    ensures Journal(Keep(wal, flushed), k) == if Find(flushed, k).Some? then None else Journal(wal, k)
  {
    if wal != [] {
      var front, r := wal[..|wal| - 1], wal[|wal| - 1];
      KeepJournal(front, flushed, k);
      JournalSnoc(front, r, k);
      assert front + [r] == wal;
      if Find(flushed, r.key).None? { JournalSnoc(Keep(front, flushed), r, k); }
      else { assert Keep(front, flushed) + [] == Keep(front, flushed); }
    }
  }

  lemma {:induction false} BitsHold(h: Hash, s: seq<Entry>)
    ensures forall e :: e in s ==> MightContain(h, Bits(h, s), e.key)
  {
    if s != [] {
      BitsHold(h, s[..|s| - 1]);
      assert s == s[..|s| - 1] + [s[|s| - 1]];
    }
  }

  /** A table built from a sorted list is sound. */
  lemma ToTableOk(h: Hash, level: nat, s: seq<Entry>)
    requires Ascending(s)
    ensures RunOk(h, ToTable(h, level, s))
  {
    BitsHold(h, s);
  }

  /** Skipping a run on its bloom filter never hides an entry. */
  lemma {:induction false} SearchIsView(h: Hash, runs: seq<Run>, k: Key)
    requires RunsOk(h, runs)
    ensures Search(h, runs, k).hit == View(runs, k)
    ensures Search(h, runs, k).cost + Search(h, runs, k).skips <= |runs|
  {
    if runs != [] {
      var t := runs[|runs| - 1];
      SearchIsView(h, runs[..|runs| - 1], k);
      FindIn(t.entries, k);
    }
  }

  lemma {:induction false} FlattenView(h: Hash, runs: seq<Run>, k: Key)
    requires RunsOk(h, runs)
    ensures FindLast(Flatten(runs), k) == View(runs, k)
  {
    if runs != [] {
      var t := runs[|runs| - 1];
      FlattenView(h, runs[..|runs| - 1], k);
      FindLastConcat(Flatten(runs[..|runs| - 1]), t.entries, k);
      UniqueFindLast(t.entries, k);
    }
  }

  lemma {:induction false} LevelsSplit(runs: seq<Run>)
    requires Levelled(runs)
    ensures OfLevel(runs, 1) + OfLevel(runs, 0) == runs
  {
    if runs != [] {
      LevelsSplit(runs[..|runs| - 1]);
      assert runs == runs[..|runs| - 1] + [runs[|runs| - 1]];
    }
  }

  lemma {:induction false} LiveFind(s: seq<Entry>, k: Key)
    requires Unique(s)
    ensures Find(Live(s), k) == if Find(s, k) == Some(None) then None else Find(s, k)
  {
    if s != [] {
      LiveFind(s[1..], k);
      FindIn(s[1..], k);
    }
  }

  lemma {:induction false} LiveAscends(s: seq<Entry>)
    requires Ascending(s)
    ensures Ascending(Live(s)) && forall e :: e in Live(s) ==> e in s
  {
    if s != [] {
      LiveAscends(s[1..]);
      assert s == [s[0]] + s[1..] && s[0] in s;
      assert forall e :: e in s[1..] ==> s[0].key < e.key;
    }
  }

  lemma ViewSnoc(runs: seq<Run>, t: Run, k: Key)
    ensures View(runs + [t], k) == if Find(t.entries, k).Some? then Find(t.entries, k) else View(runs, k)
  {
    assert (runs + [t])[..|runs|] == runs;
  }

  lemma RepairedIs(h: Hash, t: Run, wal: seq<WalRec>)
    requires RunOk(h, t)
    ensures RunOk(h, Repaired(h, t, wal)) && Repaired(h, t, wal).level == t.level && !Repaired(h, t, wal).torn
    ensures forall k {:trigger Find(t.entries, k)} :: Find(Repaired(h, t, wal).entries, k)
              == if t.torn && Journal(wal, k).Some? then Journal(wal, k) else Find(t.entries, k)
  {
    if t.torn {
      var both := [t, t.(entries := Records(wal))];
      FlattenTwo(both[0], both[1]);
      var all := t.entries + Records(wal);
      CollectKeeps(all, 0.0);
      ToTableOk(h, t.level, Collect(all));
      forall k ensures Find(Collect(all), k) == if Journal(wal, k).Some? then Journal(wal, k) else Find(t.entries, k) {
        CollectKeeps(all, k);
        FindLastConcat(t.entries, Records(wal), k);
        UniqueFindLast(t.entries, k);
      }
    }
  }

  lemma FlattenTwo(a: Run, b: Run)
    ensures Flatten([a, b]) == a.entries + b.entries
  {
    assert [a, b][..1] == [a] && [a][..0] == [];
    assert Flatten([a]) == a.entries;
  }

  // ---------- the invariant, piece by piece ----------

  /** The durable view and the invariant after a step, given what the step should do to the map. */
  ghost predicate Follows(h: Hash, s: State, s': State, written: Option<Key>, v: Option<Val>) {
    && Inv(h, s')
    && forall k {:trigger Durable(s'.wal, s'.runs, k)} ::
         Durable(s'.wal, s'.runs, k) == if written == Some(k) then v else Durable(s.wal, s.runs, k)
  }

  lemma WriteFollows(h: Hash, s: State, k: Key, v: Option<Val>)
    requires Inv(h, s)
    ensures Follows(h, s, ApplyWrite(s, k, v), Some(k), v)
  {
    var s' := ApplyWrite(s, k, v);
    UpsertKeeps(s.memtable, Entry(k, v), k);
    forall x ensures Logged(s'.memtable, s'.wal, x) {
      UpsertKeeps(s.memtable, Entry(k, v), x);
      JournalSnoc(s.wal, WalRec(s.walAckSeq + 1, k, v), x);
      assert Logged(s.memtable, s.wal, x);
    }
    forall x ensures Durable(s'.wal, s'.runs, x) == if Some(k) == Some(x) then v else Durable(s.wal, s.runs, x) {
      JournalSnoc(s.wal, WalRec(s.walAckSeq + 1, k, v), x);
    }
  }

  lemma FlushFollows(h: Hash, s: State)
    requires Inv(h, s)
    ensures Follows(h, s, FlushCommit(h, s), None, None)
  {
    var s' := FlushCommit(h, s);
    if s.memtable != [] {
      var t := ToTable(h, 0, s.memtable);
      ToTableOk(h, 0, s.memtable);
      forall x ensures Durable(s'.wal, s'.runs, x) == Durable(s.wal, s.runs, x) {
        KeepJournal(s.wal, s.memtable, x);
        ViewSnoc(s.runs, t, x);
        assert Logged(s.memtable, s.wal, x);
      }
    } else {
      assert forall x :: Logged(s.memtable, s.wal, x) ==> Logged(s'.memtable, s'.wal, x);
    }
  }

  lemma CompactedView(h: Hash, s: State, k: Key)
    requires Inv(h, s) && Compacts(s)
    ensures View(CompactRuns(h, s).runs, k) == if View(s.runs, k) == Some(None) then None else View(s.runs, k)
  {
    LevelsSplit(s.runs);
    var all := Merged(s.runs);
    CollectKeeps(Flatten(s.runs), k);
    LiveFind(all, k);
    FlattenView(h, s.runs, k);
    ViewSnoc([], ToTable(h, 1, Live(all)), k);
    assert [] + [ToTable(h, 1, Live(all))] == [ToTable(h, 1, Live(all))];
  }

  lemma CompactFollows(h: Hash, s: State)
    requires Inv(h, s)
    ensures Follows(h, s, CompactRuns(h, s), None, None)
  {
    var s' := CompactRuns(h, s);
    assert forall x :: Logged(s.memtable, s.wal, x) ==> Logged(s'.memtable, s'.wal, x);
    if Compacts(s) {
      var all := Merged(OfLevel(s.runs, 1) + OfLevel(s.runs, 0));
      CollectKeeps(Flatten(OfLevel(s.runs, 1) + OfLevel(s.runs, 0)), 0.0);
      LiveAscends(all);
      ToTableOk(h, 1, Live(all));
      forall x ensures Durable(s'.wal, s'.runs, x) == Durable(s.wal, s.runs, x) { CompactedView(h, s, x); }
    }
  }

  lemma ReplayFollows(h: Hash, s: State)
    requires Inv(h, s)
    ensures Follows(h, s, ApplyFault(h, s, CrashMidWrite), None, None)
  {
    var s' := ApplyFault(h, s, CrashMidWrite);
    CollectKeeps(Records(s.wal), 0.0);
    forall x ensures Logged(s'.memtable, s'.wal, x) { CollectKeeps(Records(s.wal), x); }
  }

  lemma {:induction false} RepairView(h: Hash, runs: seq<Run>, wal: seq<WalRec>, k: Key)
    requires RunsOk(h, runs) && Journal(wal, k).None?
    ensures View(RepairAll(h, runs, wal), k) == View(runs, k)
  {
    if runs != [] {
      var front, t := runs[..|runs| - 1], runs[|runs| - 1];
      RepairView(h, front, wal, k);
      RepairedIs(h, t, wal);
      assert Find(Repaired(h, t, wal).entries, k) == Find(t.entries, k);
      ViewSnoc(RepairAll(h, front, wal), Repaired(h, t, wal), k);
    }
  }

  lemma {:induction false} RepairOk(h: Hash, runs: seq<Run>, wal: seq<WalRec>)
    requires RunsOk(h, runs)
    ensures |RepairAll(h, runs, wal)| == |runs| && RunsOk(h, RepairAll(h, runs, wal))
    ensures forall i :: 0 <= i < |runs| ==> RepairAll(h, runs, wal)[i].level == runs[i].level
  {
    if runs != [] {
      RepairOk(h, runs[..|runs| - 1], wal);
      RepairedIs(h, runs[|runs| - 1], wal);
    }
  }

  lemma RecoverFollows(h: Hash, s: State)
    requires Inv(h, s)
    ensures Follows(h, s, ApplyFault(h, s, Recover), None, None)
  {
    var s' := ApplyFault(h, s, Recover);
    RepairOk(h, s.runs, s.wal);
    assert forall x :: Logged(s.memtable, s.wal, x) ==> Logged(s'.memtable, s'.wal, x);
    forall x ensures Durable(s'.wal, s'.runs, x) == Durable(s.wal, s.runs, x) {
      if Journal(s.wal, x).None? { RepairView(h, s.runs, s.wal, x); }
    }
  }

  lemma TearMemtable(h: Hash, s: State)
    requires Inv(h, s) && s.runs == [] && s.memtable != []
    ensures Follows(h, s, Tear(h, s), None, None)
  {
    var s' := Tear(h, s);
    var kept, e := s.memtable[..|s.memtable| - 1], s.memtable[|s.memtable| - 1];
    ToTableOk(h, 0, kept);
    forall x ensures Durable(s'.wal, s'.runs, x) == Durable(s.wal, s.runs, x) {
      assert Logged(s.memtable, s.wal, x);
      assert s.memtable == kept + [e];
      FindSnoc(kept, e, x);
      ViewSnoc([], s'.runs[0], x);
      assert [] + [s'.runs[0]] == s'.runs;
    }
  }

  lemma LastReplaced(runs: seq<Run>, t: Run, k: Key)
    requires runs != []
    ensures View(runs[|runs| - 1 := t], k)
         == if Find(t.entries, k).Some? then Find(t.entries, k) else View(runs[..|runs| - 1], k)
  {
    ViewSnoc(runs[..|runs| - 1], t, k);
    assert runs[|runs| - 1 := t] == runs[..|runs| - 1] + [t];
  }

  lemma TornFind(s: seq<Entry>, k: Key)
    requires Ascending(s) && s != []
    ensures Find(s[..|s| - 1], k) == if k == s[|s| - 1].key then None else Find(s, k)
    ensures Find(s, s[|s| - 1].key) == Some(s[|s| - 1].val)
  {
    assert s == s[..|s| - 1] + [s[|s| - 1]];
    FindSnoc(s[..|s| - 1], s[|s| - 1], k);
    FindIn(s[..|s| - 1], s[|s| - 1].key);
    FindAt(s, |s| - 1);
  }

  /** A run without its last entry, which goes to the front of the journal. */
  lemma TornDurable(wal: seq<WalRec>, runs: seq<Run>, t: Run, r: WalRec, k: Key)
    requires runs != [] && Ascending(runs[|runs| - 1].entries) && runs[|runs| - 1].entries != []
    requires var was := runs[|runs| - 1].entries;
             t.entries == was[..|was| - 1] && r.key == was[|was| - 1].key && r.val == was[|was| - 1].val
    ensures Durable([r] + wal, runs[|runs| - 1 := t], k) == Durable(wal, runs, k)
  {
    JournalCons(r, wal, k);
    LastReplaced(runs, t, k);
    TornFind(runs[|runs| - 1].entries, k);
  }

  lemma TearRun(h: Hash, s: State)
    requires Inv(h, s) && s.runs != [] && s.runs[|s.runs| - 1].entries != []
    ensures Follows(h, s, Tear(h, s), None, None)
  {
    var s' := Tear(h, s);
    var last := s.runs[|s.runs| - 1].entries[|s.runs[|s.runs| - 1].entries| - 1];
    var t, r := s'.runs[|s.runs| - 1], WalRec(s.walAckSeq + 1, last.key, last.val);
    assert RunOk(h, s.runs[|s.runs| - 1]);
    assert RunOk(h, t);
    forall x ensures Durable([r] + s.wal, s.runs[|s.runs| - 1 := t], x) == Durable(s.wal, s.runs, x) {
      TornDurable(s.wal, s.runs, t, r, x);
    }
    forall x ensures Logged(s.memtable, [r] + s.wal, x) {
      JournalCons(r, s.wal, x);
      assert Logged(s.memtable, s.wal, x);
    }
  }

  lemma TearEmpty(h: Hash, s: State)
    requires Inv(h, s) && s.runs != [] && s.runs[|s.runs| - 1].entries == []
    ensures Follows(h, s, Tear(h, s), None, None)
  {
    var t := s.runs[|s.runs| - 1].(torn := true);
    assert RunOk(h, s.runs[|s.runs| - 1]) ==> RunOk(h, t);
    forall x ensures Durable(s.wal, s.runs[|s.runs| - 1 := t], x) == Durable(s.wal, s.runs, x) {
      LastReplaced(s.runs, t, x);
    }
  }

  lemma TearFollows(h: Hash, s: State)
    requires Inv(h, s)
    ensures Follows(h, s, Tear(h, s), None, None)
  {
    if s.runs == [] {
      if s.memtable != [] { TearMemtable(h, s); }
    } else if s.runs[|s.runs| - 1].entries == [] {
      TearEmpty(h, s);
    } else {
      TearRun(h, s);
    }
  }

  // ---------- whole histories ----------

  lemma MaybeOnly(s: State)
    ensures var t := MaybeFlush(s).0; t == s.(phase := t.phase)
    ensures var t := MaybeCompact(s).0; t == s.(phase := t.phase)
  {
  }

  lemma Unwritten(h: Hash, s: State, s': State)
    requires Inv(h, s) && s'.memtable == s.memtable && s'.wal == s.wal && s'.runs == s.runs
    ensures Follows(h, s, s', None, None)
  {
    assert forall x :: Logged(s.memtable, s.wal, x) ==> Logged(s'.memtable, s'.wal, x);
  }

  function Written(e: Event): Option<Key> {
    match e case Put(k, _) => Some(k) case Delete(k) => Some(k) case _ => None
  }

  function Content(e: Event): Option<Val> {
    match e case Put(_, v) => Some(v) case _ => None
  }

  lemma PhaseOnly(h: Hash, s: State, a: State, b: State, written: Option<Key>, v: Option<Val>)
    requires Follows(h, s, a, written, v) && b == a.(phase := b.phase)
    ensures Follows(h, s, b, written, v)
  {
    assert forall x :: Logged(a.memtable, a.wal, x) ==> Logged(b.memtable, b.wal, x);
  }

  lemma FaultFollows(h: Hash, s: State, f: Fault)
    requires Inv(h, s)
    ensures Follows(h, s, ApplyFault(h, s, f), None, None)
  {
    match f {
      case CrashMidWrite => { ReplayFollows(h, s); }
      case DiskFull => { Unwritten(h, s, ApplyFault(h, s, f)); }
      case TornWrite => { TearFollows(h, s); }
      case Recover => { RecoverFollows(h, s); }
    }
  }

  lemma StepFollows(h: Hash, s: State, e: Event)
    requires Inv(h, s)
    ensures Follows(h, s, Reduce(h, s, e).0, Written(e), Content(e))
  {
    var s' := Reduce(h, s, e).0;
    match e {
      case Fails(f) => { FaultFollows(h, s, f); }
      case Fires(t) => {
        match t {
          case FlushPhase2 => {
            FlushFollows(h, s);
            MaybeOnly(FlushCommit(h, s));
            PhaseOnly(h, s, FlushCommit(h, s), s', None, None);
          }
          case Compact => { CompactFollows(h, s); }
          case SplitCommit => { Unwritten(h, s, s'); }
        }
      }
      case Get(k) => { Unwritten(h, s, s'); }
      case Put(k, v) => {
        WriteFollows(h, s, k, Some(v));
        MaybeOnly(ApplyWrite(s, k, Some(v)));
        PhaseOnly(h, s, ApplyWrite(s, k, Some(v)), s', Some(k), Some(v));
      }
      case Delete(k) => {
        WriteFollows(h, s, k, None);
        MaybeOnly(ApplyWrite(s, k, None));
        PhaseOnly(h, s, ApplyWrite(s, k, None), s', Some(k), None);
      }
      case Nothing => { Unwritten(h, s, s'); }
    }
  }

  lemma AskLooks(m: Table, e: Event, k: Key)
    ensures Lookup(Ask(m, e), k) == if Written(e) == Some(k) then Content(e) else Lookup(m, k)
  {
  }

  lemma {:induction false} Invariant(h: Hash, es: seq<Event>)
    ensures Inv(h, After(h, es))
  {
    if es != [] {
      Invariant(h, es[..|es| - 1]);
      StepFollows(h, After(h, es[..|es| - 1]), es[|es| - 1]);
    }
  }

  /** Whatever faults strike, the last record of a key, else the newest run holding it, is what was last
      written to that key. */
  lemma {:induction false} DurableView(h: Hash, es: seq<Event>, k: Key)
    ensures Durable(After(h, es).wal, After(h, es).runs, k) == Lookup(Asked(es), k)
  {
    if es != [] {
      var front, e := es[..|es| - 1], es[|es| - 1];
      DurableView(h, front, k);
      Invariant(h, front);
      StepFollows(h, After(h, front), e);
      AskLooks(Asked(front), e, k);
    }
  }

  /** What a read returns, whichever run the bloom filters make it skip. */
  lemma AnswerIs(h: Hash, s: State, k: Key)
    requires Inv(h, s)
    ensures Answer(h, s, k) == if Find(s.memtable, k).Some? then Durable(s.wal, s.runs, k) else Flat(View(s.runs, k))
  {
    SearchIsView(h, s.runs, k);
    assert Logged(s.memtable, s.wal, k);
  }

  ghost predicate Exact(h: Hash, s: State, m: Table) {
    forall k {:trigger Answer(h, s, k)} :: Answer(h, s, k) == Lookup(m, k)
  }

  lemma ReplayedReads(h: Hash, s: State, k: Key)
    requires Inv(h, s) && s.memtable == Collect(Records(s.wal))
    ensures Answer(h, s, k) == Durable(s.wal, s.runs, k)
  {
    AnswerIs(h, s, k);
    CollectKeeps(Records(s.wal), k);
  }

  /** Right after a crash every read returns the last acknowledged write. */
  lemma CrashReads(h: Hash, es: seq<Event>)
    ensures var after := es + [Fails(CrashMidWrite)]; Exact(h, After(h, after), Asked(after))
  {
    var after := es + [Fails(CrashMidWrite)];
    var s := After(h, after);
    assert after[..|es|] == es;
    Invariant(h, after);
    forall k ensures Answer(h, s, k) == Lookup(Asked(after), k) {
      ReplayedReads(h, s, k);
      DurableView(h, after, k);
    }
  }

  // ---------- runs without torn writes ----------

  lemma KeepNone(wal: seq<WalRec>, flushed: seq<Entry>)
    requires forall r :: r in wal ==> Find(flushed, r.key).Some?
    ensures Keep(wal, flushed) == []
  {
    if wal != [] { KeepNone(wal[..|wal| - 1], flushed); }
  }

  lemma {:induction false} JournalHas(wal: seq<WalRec>, r: WalRec)
    requires r in wal
    ensures Journal(wal, r.key).Some?
  {
    var front, last := wal[..|wal| - 1], wal[|wal| - 1];
    assert wal == front + [last];
    JournalSnoc(front, last, r.key);
    if r != last { JournalHas(front, r); }
  }

  /** A flush empties the journal when the memtable holds exactly what the journal replays to. */
  lemma FlushClears(wal: seq<WalRec>, memtable: seq<Entry>)
    requires memtable == Collect(Records(wal))
    ensures Keep(wal, memtable) == []
  {
    forall r | r in wal ensures Find(memtable, r.key).Some? {
      JournalHas(wal, r);
      CollectKeeps(Records(wal), r.key);
    }
    KeepNone(wal, memtable);
  }

  ghost predicate Untorn(es: seq<Event>) {
    Fails(TornWrite) !in es
  }

  ghost predicate Replays(s: State) {
    s.memtable == Collect(Records(s.wal))
  }

  lemma FlushReplays(h: Hash, s: State)
    requires Replays(s)
    ensures Replays(FlushCommit(h, s))
  {
    FlushClears(s.wal, s.memtable);
  }

  lemma WriteReplays(s: State, k: Key, v: Option<Val>)
    requires Replays(s)
    ensures Replays(ApplyWrite(s, k, v))
  {
    RecordsSnoc(s.wal, WalRec(s.walAckSeq + 1, k, v));
  }

  lemma SameReplays(s: State, s': State)
    requires Replays(s) && s'.memtable == s.memtable && s'.wal == s.wal
    ensures Replays(s')
  {
  }

  lemma ReplayStep(h: Hash, s: State, e: Event)
    requires Replays(s) && e != Fails(TornWrite)
    ensures Replays(Reduce(h, s, e).0)
  {
    var s' := Reduce(h, s, e).0;
    match e {
      case Put(k, v) => {
        WriteReplays(s, k, Some(v));
        MaybeOnly(ApplyWrite(s, k, Some(v)));
        SameReplays(ApplyWrite(s, k, Some(v)), s');
      }
      case Delete(k) => {
        WriteReplays(s, k, None);
        MaybeOnly(ApplyWrite(s, k, None));
        SameReplays(ApplyWrite(s, k, None), s');
      }
      case Fires(t) => {
        match t {
          case FlushPhase2 => {
            FlushReplays(h, s);
            MaybeOnly(FlushCommit(h, s));
            SameReplays(FlushCommit(h, s), s');
          }
          case Compact => { SameReplays(s, s'); }
          case SplitCommit => {}
        }
      }
      case Fails(f) => {
        match f {
          case CrashMidWrite => {}
          case DiskFull => { SameReplays(s, s'); }
          case TornWrite => {}
          case Recover => { SameReplays(s, s'); }
        }
      }
      case Get(k) => { SameReplays(s, s'); }
      case Nothing => {}
    }
  }

  lemma RecordsSnoc(wal: seq<WalRec>, r: WalRec)
    ensures Collect(Records(wal + [r])) == Upsert(Collect(Records(wal)), Entry(r.key, r.val))
  {
    assert (wal + [r])[..|wal|] == wal;
    CollectSnoc(Records(wal), Entry(r.key, r.val));
  }

  /** Without torn writes the memtable is always the replay of the journal... */
  lemma {:induction false} MemtableReplays(h: Hash, es: seq<Event>)
    requires Untorn(es)
    ensures Replays(After(h, es))
  {
    if es != [] {
      MemtableReplays(h, es[..|es| - 1]);
      ReplayStep(h, After(h, es[..|es| - 1]), es[|es| - 1]);
    }
  }

  /** ... and every read returns the last write. */
  lemma UntornReads(h: Hash, es: seq<Event>)
    requires Untorn(es)
    ensures Exact(h, After(h, es), Asked(es))
  {
    MemtableReplays(h, es);
    Invariant(h, es);
    forall k ensures Answer(h, After(h, es), k) == Lookup(Asked(es), k) {
      ReplayedReads(h, After(h, es), k);
      DurableView(h, es, k);
    }
  }

  // ---------- reads right after recovery ----------

  /** The newest run that is torn or holds k. */
  function Newest(runs: seq<Run>, k: Key): Option<Run> {
    if runs == [] then None
    else if runs[|runs| - 1].torn || Find(runs[|runs| - 1].entries, k).Some? then Some(runs[|runs| - 1])
    else Newest(runs[..|runs| - 1], k)
  }

  /** A journalled key that the memtable lacks still has a torn run to be repaired into, or needs no repair. */
  ghost predicate CoveredAt(memtable: seq<Entry>, wal: seq<WalRec>, runs: seq<Run>, k: Key) {
    Find(memtable, k).None? && Journal(wal, k).Some? ==>
      || (Newest(runs, k).Some? && Newest(runs, k).value.torn)
      || Flat(View(runs, k)) == Flat(Journal(wal, k))
  }

  ghost predicate Covered(s: State) {
    forall k {:trigger CoveredAt(s.memtable, s.wal, s.runs, k)} :: CoveredAt(s.memtable, s.wal, s.runs, k)
  }

  lemma NewestSnoc(runs: seq<Run>, t: Run, k: Key)
    ensures Newest(runs + [t], k) == if t.torn || Find(t.entries, k).Some? then Some(t) else Newest(runs, k)
  {
    assert (runs + [t])[..|runs|] == runs;
  }

  /** The view once every torn run holds what the journal says of k. */
  function Mended(runs: seq<Run>, wal: seq<WalRec>, k: Key): Option<Option<Val>> {
    if Newest(runs, k).Some? && Newest(runs, k).value.torn then Journal(wal, k) else View(runs, k)
  }

  lemma MendedSnoc(runs: seq<Run>, t: Run, wal: seq<WalRec>, k: Key)
    ensures Mended(runs + [t], wal, k)
         == if t.torn then Journal(wal, k) else if Find(t.entries, k).Some? then Find(t.entries, k) else Mended(runs, wal, k)
  {
    NewestSnoc(runs, t, k);
    ViewSnoc(runs, t, k);
  }

  /** What repair leaves for a journalled key. */
  lemma {:induction false} RepairedView(h: Hash, runs: seq<Run>, wal: seq<WalRec>, k: Key)
    requires RunsOk(h, runs) && Journal(wal, k).Some?
    ensures View(RepairAll(h, runs, wal), k) == Mended(runs, wal, k)
  {
    if runs != [] {
      var front, t := runs[..|runs| - 1], runs[|runs| - 1];
      RepairedView(h, front, wal, k);
      RepairedAt(h, t, wal, k);
      ViewSnoc(RepairAll(h, front, wal), Repaired(h, t, wal), k);
      assert runs == front + [t];
      MendedSnoc(front, t, wal, k);
    }
  }

  lemma RepairedAt(h: Hash, t: Run, wal: seq<WalRec>, k: Key)
    requires RunOk(h, t) && Journal(wal, k).Some?
    ensures Find(Repaired(h, t, wal).entries, k) == if t.torn then Journal(wal, k) else Find(t.entries, k)
  {
    RepairedIs(h, t, wal);
    assert Find(t.entries, k) == Find(t.entries, k);
  }

  lemma RecoveredAnswer(h: Hash, s: State, k: Key)
    requires Inv(h, s)
    ensures var s' := ApplyFault(h, s, Recover);
      Answer(h, s', k) == Durable(s'.wal, s'.runs, k) <==> CoveredAt(s.memtable, s.wal, s.runs, k)
  {
    var s' := ApplyFault(h, s, Recover);
    RecoverFollows(h, s);
    AnswerIs(h, s', k);
    if Journal(s.wal, k).Some? { RepairedView(h, s.runs, s.wal, k); }
  }

  /** Every read right after a recovery is exact if and only if the state it repaired was covered. */
  lemma RecoverReadsIff(h: Hash, es: seq<Event>)
    ensures var after := es + [Fails(Recover)]; Exact(h, After(h, after), Asked(after)) <==> Covered(After(h, es))
  {
    var after := es + [Fails(Recover)];
    var s, s' := After(h, es), After(h, after);
    assert after[..|es|] == es;
    Invariant(h, es);
    forall k ensures Answer(h, s', k) == Lookup(Asked(after), k) <==> CoveredAt(s.memtable, s.wal, s.runs, k) {
      RecoveredIs(h, s, s', Asked(after), k, Durable(s'.wal, s'.runs, k));
      DurableView(h, after, k);
    }
    ExactIffCovered(h, s', Asked(after), s);
  }

  lemma RecoveredIs(h: Hash, s: State, s': State, m: Table, k: Key, durable: Option<Val>)
    requires Inv(h, s) && s' == ApplyFault(h, s, Recover) && durable == Durable(s'.wal, s'.runs, k)
    ensures durable == Lookup(m, k) ==> (Answer(h, s', k) == Lookup(m, k) <==> CoveredAt(s.memtable, s.wal, s.runs, k))
  {
    RecoveredAnswer(h, s, k);
  }

  lemma ExactIffCovered(h: Hash, s': State, m: Table, s: State)
    requires forall k :: Answer(h, s', k) == Lookup(m, k) <==> CoveredAt(s.memtable, s.wal, s.runs, k)
    ensures Exact(h, s', m) <==> Covered(s)
  {
  }

  predicate AnyTorn(runs: seq<Run>) {
    exists t :: t in runs && t.torn
  }

  /** No compaction ever rewrote a torn run. */
  ghost predicate Careful(h: Hash, es: seq<Event>) {
    forall i :: 0 <= i < |es| && es[i] == Fires(Compact) && Compacts(After(h, es[..i])) ==> !AnyTorn(After(h, es[..i]).runs)
  }

  lemma {:induction false} NothingTorn(runs: seq<Run>, k: Key)
    requires !AnyTorn(runs)
    ensures Newest(runs, k).Some? ==> !Newest(runs, k).value.torn
  {
    if runs != [] {
      assert runs[|runs| - 1] in runs;
      assert forall t :: t in runs[..|runs| - 1] ==> t in runs;
      NothingTorn(runs[..|runs| - 1], k);
    }
  }

  lemma WriteCovered(s: State, k: Key, v: Option<Val>)
    requires Covered(s) && Ascending(s.memtable)
    ensures Covered(ApplyWrite(s, k, v))
  {
    var s' := ApplyWrite(s, k, v);
    forall x ensures CoveredAt(s'.memtable, s'.wal, s'.runs, x) {
      UpsertKeeps(s.memtable, Entry(k, v), x);
      JournalSnoc(s.wal, WalRec(s.walAckSeq + 1, k, v), x);
      assert CoveredAt(s.memtable, s.wal, s.runs, x);
    }
  }

  lemma FlushCovered(h: Hash, s: State)
    requires Covered(s)
    ensures Covered(FlushCommit(h, s))
  {
    var s' := FlushCommit(h, s);
    forall x ensures CoveredAt(s'.memtable, s'.wal, s'.runs, x) {
      assert CoveredAt(s.memtable, s.wal, s.runs, x);
      if s.memtable != [] {
        KeepJournal(s.wal, s.memtable, x);
        ViewSnoc(s.runs, ToTable(h, 0, s.memtable), x);
        NewestSnoc(s.runs, ToTable(h, 0, s.memtable), x);
      }
    }
  }

  lemma CompactCovered(h: Hash, s: State)
    requires Covered(s) && Inv(h, s) && (Compacts(s) ==> !AnyTorn(s.runs))
    ensures Covered(CompactRuns(h, s))
  {
    var s' := CompactRuns(h, s);
    forall x ensures CoveredAt(s'.memtable, s'.wal, s'.runs, x) {
      assert CoveredAt(s.memtable, s.wal, s.runs, x);
      if Compacts(s) {
        NothingTorn(s.runs, x);
        CompactedView(h, s, x);
      }
    }
  }

  lemma TornCovered(s: State)
    requires s.runs != [] && s.runs[|s.runs| - 1].torn
    ensures Covered(s)
  {
    assert forall x :: Newest(s.runs, x) == Some(s.runs[|s.runs| - 1]);
  }

  lemma RecoverCovered(h: Hash, s: State)
    requires Covered(s) && Inv(h, s)
    ensures Covered(ApplyFault(h, s, Recover))
  {
    var s' := ApplyFault(h, s, Recover);
    forall x ensures CoveredAt(s'.memtable, s'.wal, s'.runs, x) {
      assert CoveredAt(s.memtable, s.wal, s.runs, x);
      if Journal(s.wal, x).Some? { RepairedView(h, s.runs, s.wal, x); }
    }
  }

  lemma FaultCovered(h: Hash, s: State, f: Fault)
    requires Covered(s) && Inv(h, s)
    ensures Covered(ApplyFault(h, s, f))
  {
    var s' := ApplyFault(h, s, f);
    match f {
      case CrashMidWrite => {
        forall x ensures CoveredAt(s'.memtable, s'.wal, s'.runs, x) { CollectKeeps(Records(s.wal), x); }
      }
      case DiskFull => { SameCovered(s, s'); }
      case TornWrite => {
        if s.runs == [] && s.memtable == [] { SameCovered(s, s'); } else { TornCovered(s'); }
      }
      case Recover => { RecoverCovered(h, s); }
    }
  }

  lemma SameCovered(s: State, s': State)
    requires Covered(s) && s'.memtable == s.memtable && s'.wal == s.wal && s'.runs == s.runs
    ensures Covered(s')
  {
    assert forall x :: CoveredAt(s.memtable, s.wal, s.runs, x) ==> CoveredAt(s'.memtable, s'.wal, s'.runs, x);
  }

  lemma StepCovered(h: Hash, s: State, e: Event)
    requires Covered(s) && Inv(h, s)
    requires e == Fires(Compact) && Compacts(s) ==> !AnyTorn(s.runs)
    ensures Covered(Reduce(h, s, e).0)
  {
    var s' := Reduce(h, s, e).0;
    match e {
      case Fails(f) => { FaultCovered(h, s, f); }
      case Fires(t) => {
        match t {
          case FlushPhase2 => {
            FlushCovered(h, s);
            MaybeOnly(FlushCommit(h, s));
            SameCovered(FlushCommit(h, s), s');
          }
          case Compact => { CompactCovered(h, s); }
          case SplitCommit => {}
        }
      }
      case Get(k) => { SameCovered(s, s'); }
      case Put(k, v) => {
        WriteCovered(s, k, Some(v));
        MaybeOnly(ApplyWrite(s, k, Some(v)));
        SameCovered(ApplyWrite(s, k, Some(v)), s');
      }
      case Delete(k) => {
        WriteCovered(s, k, None);
        MaybeOnly(ApplyWrite(s, k, None));
        SameCovered(ApplyWrite(s, k, None), s');
      }
      case Nothing => {}
    }
  }

  lemma {:induction false} CarefulCovered(h: Hash, es: seq<Event>)
    requires Careful(h, es)
    ensures Covered(After(h, es))
  {
    if es != [] {
      var front := es[..|es| - 1];
      assert forall i :: 0 <= i < |front| ==> front[i] == es[i] && front[..i] == es[..i];
      CarefulCovered(h, front);
      Invariant(h, front);
      StepCovered(h, After(h, front), es[|es| - 1]);
    } else {
      assert forall k :: Journal([], k).None?;
    }
  }

  /** With torn writes, every read right after a recovery is exact when no compaction rewrote a torn run. */
  lemma RecoverReads(h: Hash, es: seq<Event>)
    requires Careful(h, es)
    ensures var after := es + [Fails(Recover)]; Exact(h, After(h, after), Asked(after))
  {
    CarefulCovered(h, es);
    RecoverReadsIff(h, es);
  }

  lemma RecoverNothing(h: Hash, s: State, k: Key)
    requires Inv(h, s) && !AnyTorn(s.runs) && Find(s.memtable, k).None?
    ensures Answer(h, ApplyFault(h, s, Recover), k) == Flat(View(s.runs, k))
  {
    var s' := ApplyFault(h, s, Recover);
    RecoverFollows(h, s);
    AnswerIs(h, s', k);
    NothingTorn(s.runs, k);
    if Journal(s.wal, k).Some? { RepairedView(h, s.runs, s.wal, k); } else { RepairView(h, s.runs, s.wal, k); }
  }

  lemma TornView(h: Hash, s: State, k: Key)
    requires Inv(h, s) && s.runs != [] && s.runs[|s.runs| - 1].entries != []
    requires var lost := s.runs[|s.runs| - 1].entries; k == lost[|lost| - 1].key
    ensures View(Tear(h, s).runs, k) == View(s.runs[..|s.runs| - 1], k)
  {
    var t := s.runs[|s.runs| - 1];
    LastReplaced(s.runs, t.(entries := t.entries[..|t.entries| - 1], torn := true), k);
    TornFind(t.entries, k);
  }

  lemma CompactMends(h: Hash, s: State)
    requires Compacts(s)
    ensures !AnyTorn(CompactRuns(h, s).runs) && CompactRuns(h, s).memtable == s.memtable
  {
  }

  /** Compacting a torn run forgets that it was torn, so the entry it lost stays in the journal and recovery has nothing
      to repair. The read falls back to what older runs hold. */
  lemma TornCompactForgets(h: Hash, s: State, k: Key)
    requires Inv(h, s) && s.runs != [] && s.runs[|s.runs| - 1].entries != []
    requires var lost := s.runs[|s.runs| - 1].entries; k == lost[|lost| - 1].key
    requires Find(s.memtable, k).None? && Compacts(Tear(h, s))
    ensures Answer(h, ApplyFault(h, CompactRuns(h, Tear(h, s)), Recover), k) == Flat(View(s.runs[..|s.runs| - 1], k))
  {
    TearFollows(h, s);
    TornView(h, s, k);
    CompactFollows(h, Tear(h, s));
    CompactedView(h, Tear(h, s), k);
    CompactMends(h, Tear(h, s));
    TearMemtableKept(h, s);
    RecoverNothing(h, CompactRuns(h, Tear(h, s)), k);
  }

  lemma TearMemtableKept(h: Hash, s: State)
    requires s.runs != []
    ensures Tear(h, s).memtable == s.memtable && Tear(h, s).diskFull == s.diskFull
  {
  }

  /** How many of the newest runs a search looks at: down to the newest that holds the key, or all of them. */
  function Depth(runs: seq<Run>, k: Key): nat {
    if runs == [] then 0 else if Find(runs[|runs| - 1].entries, k).Some? then 1 else 1 + Depth(runs[..|runs| - 1], k)
  }

  /** How many of the newest n runs the filter rules out. */
  function RuledOut(h: Hash, runs: seq<Run>, k: Key, n: nat): nat
    requires n <= |runs|
  {
    if n == 0 then 0
    else RuledOut(h, runs[..|runs| - 1], k, n - 1) + if MightContain(h, runs[|runs| - 1].bloom, k) then 0 else 1
  }

  lemma {:induction false} DepthWithin(runs: seq<Run>, k: Key)
    ensures Depth(runs, k) <= |runs|
  {
    if runs != [] { DepthWithin(runs[..|runs| - 1], k); }
  }

  /** A read costs one probe for each run it looks at that its filter does not rule out, and counts the others as skips. */
  lemma {:induction false} SearchCosts(h: Hash, runs: seq<Run>, k: Key)
    requires RunsOk(h, runs)
    ensures Depth(runs, k) <= |runs|
    ensures Search(h, runs, k).skips == RuledOut(h, runs, k, Depth(runs, k))
    ensures Search(h, runs, k).cost == Depth(runs, k) - RuledOut(h, runs, k, Depth(runs, k))
  {
    DepthWithin(runs, k);
    if runs != [] {
      var front, t := runs[..|runs| - 1], runs[|runs| - 1];
      SearchCosts(h, front, k);
      assert RunOk(h, t);
      if Find(t.entries, k).Some? {
        FindIn(t.entries, k);
        assert RuledOut(h, front, k, 0) == 0;
      }
    }
  }

  // ---------- a full disk ----------

  /** The runs of before, each as it was or torn since, and perhaps newer ones. */
  ghost predicate RunsKept(a: seq<Run>, b: seq<Run>) {
    |a| <= |b| && forall i :: 0 <= i < |a| ==> b[i] == a[i] || (b[i].torn && b[i].level == a[i].level)
  }

  lemma RunsKeptThen(a: seq<Run>, b: seq<Run>, c: seq<Run>)
    requires RunsKept(a, b) && RunsKept(b, c)
    ensures RunsKept(a, c)
  {
  }

  lemma FullStep(h: Hash, s: State, e: Event)
    requires s.diskFull && e != Fails(Recover)
    ensures var r := Reduce(h, s, e).0; r.diskFull && RunsKept(s.runs, r.runs)
    ensures e == Fires(Compact) ==> Reduce(h, s, e).0 == s.(phase := Idle)
  {
  }

  ghost predicate StillFull(a: seq<Run>, s: State) { s.diskFull && RunsKept(a, s.runs) }

  lemma FullNext(h: Hash, a: seq<Run>, s: State, e: Event)
    requires StillFull(a, s) && e != Fails(Recover)
    ensures StillFull(a, Reduce(h, s, e).0)
  {
    FullStep(h, s, e);
    RunsKeptThen(a, s.runs, Reduce(h, s, e).0.runs);
  }

  lemma AfterOne(h: Hash, front: seq<Event>, e: Event, all: seq<Event>)
    requires all == front + [e]
    ensures After(h, all) == Reduce(h, After(h, front), e).0
  {
    assert all[..|all| - 1] == front;
  }

  lemma {:induction false} FullOn(h: Hash, a: seq<Run>, es: seq<Event>, more: seq<Event>, all: seq<Event>)
    requires StillFull(a, After(h, es)) && all == es + more
    requires forall i :: 0 <= i < |more| ==> more[i] != Fails(Recover)
    ensures StillFull(a, After(h, all))
    decreases |more|
  {
    if more == [] {
      assert all == es;
    } else {
      var n := |more| - 1;
      var front := es + more[..n];
      FullOn(h, a, es, more[..n], front);
      assert all == front + [more[n]];
      AfterOne(h, front, more[n], all);
      FullNext(h, a, After(h, front), more[n]);
    }
  }

  /** With the disk full no compaction rewrites anything: until a recovery every run stays, unless it is torn. */
  lemma FullKeepsRuns(h: Hash, es: seq<Event>, more: seq<Event>)
    requires After(h, es).diskFull && forall i :: 0 <= i < |more| ==> more[i] != Fails(Recover)
    ensures After(h, es + more).diskFull && RunsKept(After(h, es).runs, After(h, es + more).runs)
  {
    FullOn(h, After(h, es).runs, es, more, es + more);
  }

  /** The reducer as the engine runs it, with its loops. */
  method LsmReduce(h: Hash, s: State, e: Event) returns (s': State, fx: seq<Effect>)
    ensures (s', fx) == Reduce(h, s, e)
  {
    fx := [];
    match e {
      case Get(k) => {
        var value;
        s', value := LsmGet(h, s, k);
      }
      case Fails(CrashMidWrite) => {
        s' := RecoverFromWal(s.(memtable := [], phase := Recovering));
      }
      case Fires(FlushPhase2) => {
        var flushed := s.(phase := Idle);
        if s.memtable != [] {
          var bloom := BuildBloom(h, s.memtable);
          flushed := s.(runs := s.runs + [Run(0, s.memtable, bloom, false)], memtable := [],
                        wal := Keep(s.wal, s.memtable),
                        bytesWritten := s.bytesWritten + |s.memtable| * BYTES_PER_ENTRY,
                        diskWrites := s.diskWrites + 1, phase := Idle);
        }
        var r := MaybeCompact(flushed);
        s', fx := r.0, r.1;
      }
      case Fires(Compact) => {
        s' := s.(phase := Idle);
        if Compacts(s) {
          var all := MergeRuns(OfLevel(s.runs, 1) + OfLevel(s.runs, 0));
          var merged := Live(all);
          var bloom := BuildBloom(h, merged);
          s' := s.(runs := [Run(1, merged, bloom, false)],
                   bytesWritten := s.bytesWritten + |merged| * BYTES_PER_ENTRY,
                   diskWrites := s.diskWrites + 1, phase := Idle);
        }
      }
      case _ => {
        var r := Reduce(h, s, e);
        s', fx := r.0, r.1;
      }
    }
  }
}
