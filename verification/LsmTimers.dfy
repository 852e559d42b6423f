/** Histories of the LSM engine in which a timer fires only after the engine set it, as its own simulation has it:
    five distinct keys arm a flush, three flushes a compaction. Some of them lose a write to a torn run. */
module LsmTimers {
  import opened StorageShared
  import opened Lsm

  function Sets(fx: seq<Effect>, t: Timer): nat {
    if fx == [] then 0 else (if fx[0].timer == t then 1 else 0) + Sets(fx[1..], t)
  }

  /** How often a timer was set and has not fired yet. */
  function Due(h: Hash, es: seq<Event>, t: Timer): int {
    if es == [] then 0
    else
      var front, e := es[..|es| - 1], es[|es| - 1];
      Due(h, front, t) + Sets(Reduce(h, After(h, front), e).1, t) - if e == Fires(t) then 1 else 0
  }

  /** Every timer that fires was due. */
  ghost predicate Timely(h: Hash, es: seq<Event>) {
    forall i :: 0 <= i < |es| && es[i].Fires? ==> Due(h, es[..i], es[i].timer) > 0
  }

  lemma AfterSnoc(h: Hash, es: seq<Event>, e: Event)
    ensures After(h, es + [e]) == Reduce(h, After(h, es), e).0
    ensures Asked(es + [e]) == Ask(Asked(es), e)
  {
    assert (es + [e])[..|es|] == es;
  }

  lemma DueSnoc(h: Hash, es: seq<Event>, e: Event, t: Timer)
    ensures Due(h, es + [e], t) == Due(h, es, t) + Sets(Reduce(h, After(h, es), e).1, t) - if e == Fires(t) then 1 else 0
  {
    assert (es + [e])[..|es|] == es;
  }

  lemma TimelySnoc(h: Hash, es: seq<Event>, e: Event)
    requires Timely(h, es) && (e.Fires? ==> Due(h, es, e.timer) > 0)
    ensures Timely(h, es + [e])
  {
    forall i | 0 <= i < |es + [e]| && (es + [e])[i].Fires? ensures Due(h, (es + [e])[..i], (es + [e])[i].timer) > 0 {
      assert (es + [e])[..i] == es[..i];
      if i == |es| { assert es[..i] == es; } else { assert (es + [e])[i] == es[i]; }
    }
  }

  lemma SetsOne(d: nat, u: Timer, t: Timer)
    ensures Sets([SetTimer(d, u)], t) == if u == t then 1 else 0
  {
    assert [SetTimer(d, u)][1..] == [];
  }

  // ---------- filling the memtable in key order ----------

  lemma {:induction false} InsertLast(s: seq<Entry>, e: Entry)
    requires forall f :: f in s ==> f.key < e.key
    ensures Insert(s, e) == s + [e]
  {
    if s != [] { InsertLast(s[1..], e); }
  }

  lemma {:induction false} SortAscending(s: seq<Entry>)
    requires Ascending(s)
    ensures Sort(s) == s
  {
    if s != [] {
      var n := |s| - 1;
      SortAscending(s[..n]);
      InsertLast(s[..n], s[n]);
    }
  }

  lemma UpsertLast(s: seq<Entry>, e: Entry)
    requires Ascending(s) && forall f :: f in s ==> f.key < e.key
    ensures Upsert(s, e) == s + [e]
  {
    WithoutAbsent(s, e.key);
    SortAscending(s + [e]);
  }

  /** n puts of one value, to the keys 0 to n - 1, and the entries they leave. */
  function Puts(n: nat, v: Val): seq<Event> {
    if n == 0 then [] else Puts(n - 1, v) + [Put((n - 1) as real, v)]
  }

  function Rows(n: nat, v: Val): seq<Entry> {
    seq(n, i => Entry(i as real, Some(v)))
  }

  lemma RowsMore(n: nat, v: Val)
    ensures Upsert(Rows(n, v), Entry(n as real, Some(v))) == Rows(n + 1, v)
  {
    UpsertLast(Rows(n, v), Entry(n as real, Some(v)));
  }

  /** Where a history has brought the engine, and how many flushes and compactions are due. */
  datatype Spot = Spot(memtable: seq<Entry>, runs: seq<Run>, phase: Phase, flushes: int, compactions: int)

  ghost predicate Comes(h: Hash, es: seq<Event>, spot: Spot) {
    var s := After(h, es);
    && s.memtable == spot.memtable && s.runs == spot.runs && s.phase == spot.phase && !s.diskFull
    && Timely(h, es) && Due(h, es, FlushPhase2) == spot.flushes && Due(h, es, Compact) == spot.compactions
  }

  /** A put at rest; with more than the cap in the memtable it arms a flush. */
  lemma PutComes(h: Hash, es: seq<Event>, spot: Spot, k: Key, v: Val, m: seq<Entry>, all: seq<Event>)
    requires Comes(h, es, spot) && spot.phase == Idle
    requires m == Upsert(spot.memtable, Entry(k, Some(v))) && all == es + [Put(k, v)]
    ensures Comes(h, all, if |m| > MEMTABLE_CAP then Spot(m, spot.runs, Flushing, spot.flushes + 1, spot.compactions)
                          else spot.(memtable := m))
  {
    AfterSnoc(h, es, Put(k, v));
    TimelySnoc(h, es, Put(k, v));
    DueSnoc(h, es, Put(k, v), FlushPhase2);
    DueSnoc(h, es, Put(k, v), Compact);
    SetsOne(10, FlushPhase2, FlushPhase2);
    SetsOne(10, FlushPhase2, Compact);
  }

  /** A flush that is due adds a run, and arms a compaction once there are enough. */
  lemma FlushComes(h: Hash, es: seq<Event>, spot: Spot, runs: seq<Run>, all: seq<Event>)
    requires Comes(h, es, spot) && spot.flushes > 0 && spot.memtable != []
    requires runs == spot.runs + [ToTable(h, 0, spot.memtable)] && all == es + [Fires(FlushPhase2)]
    ensures Comes(h, all, if |OfLevel(runs, 0)| >= L0_TRIGGER then Spot([], runs, Compacting, spot.flushes - 1, spot.compactions + 1)
                          else Spot([], runs, Idle, spot.flushes - 1, spot.compactions))
  {
    AfterSnoc(h, es, Fires(FlushPhase2));
    TimelySnoc(h, es, Fires(FlushPhase2));
    DueSnoc(h, es, Fires(FlushPhase2), FlushPhase2);
    DueSnoc(h, es, Fires(FlushPhase2), Compact);
    SetsOne(15, Compact, FlushPhase2);
    SetsOne(15, Compact, Compact);
  }

  lemma FillOne(h: Hash, front: seq<Event>, all: seq<Event>, was: Spot, spot: Spot, k: Key, v: Val)
    requires Comes(h, front, was) && was.phase == Idle && all == front + [Put(k, v)]
    requires spot == was.(memtable := Upsert(was.memtable, Entry(k, Some(v)))) && |spot.memtable| <= MEMTABLE_CAP
    ensures Comes(h, all, spot)
  {
    PutComes(h, front, was, k, v, spot.memtable, all);
  }

  lemma FillNext(h: Hash, front: seq<Event>, all: seq<Event>, spot: Spot, n: nat, v: Val)
    requires spot.phase == Idle && n < MEMTABLE_CAP
    requires Comes(h, front, spot.(memtable := Rows(n, v))) && all == front + [Put(n as real, v)]
    ensures Comes(h, all, spot.(memtable := Rows(n + 1, v)))
  {
    RowsMore(n, v);
    FillOne(h, front, all, spot.(memtable := Rows(n, v)), spot.(memtable := Rows(n + 1, v)), n as real, v);
  }

  lemma PutsMore(es: seq<Event>, n: nat, v: Val)
    requires n > 0
    ensures es + Puts(n, v) == es + Puts(n - 1, v) + [Put((n - 1) as real, v)]
  {
  }

  lemma {:induction false} Fill(h: Hash, es: seq<Event>, all: seq<Event>, spot: Spot, n: nat, v: Val)
    requires Comes(h, es, spot) && spot.phase == Idle && spot.memtable == [] && n <= MEMTABLE_CAP
    requires all == es + Puts(n, v)
    ensures Comes(h, all, spot.(memtable := Rows(n, v)))
    decreases n
  {
    if n == 0 {
      assert all == es && Rows(0, v) == [];
    } else {
      var front := es + Puts(n - 1, v);
      PutsMore(es, n, v);
      Fill(h, es, front, spot, n - 1, v);
      FillNext(h, front, all, spot, n - 1, v);
    }
  }

  // ---------- three flushes, a tear, the compaction, a recovery ----------

  /** Five puts and the flush they arm. */
  function Round(v: Val): seq<Event> {
    Puts(MEMTABLE_CAP + 1, v) + [Fires(FlushPhase2)]
  }

  function Flushed(h: Hash, v: Val): Run {
    ToTable(h, 0, Rows(MEMTABLE_CAP + 1, v))
  }

  lemma RoundIs(es: seq<Event>, v: Val)
    ensures es + Round(v) == es + Puts(MEMTABLE_CAP, v) + [Put(MEMTABLE_CAP as real, v)] + [Fires(FlushPhase2)]
  {
    assert Puts(MEMTABLE_CAP + 1, v) == Puts(MEMTABLE_CAP, v) + [Put(MEMTABLE_CAP as real, v)];
  }

  lemma RoundComes(h: Hash, es: seq<Event>, runs: seq<Run>, v: Val, more: seq<Run>)
    requires Comes(h, es, Spot([], runs, Idle, 0, 0)) && more == runs + [Flushed(h, v)]
    ensures Comes(h, es + Round(v), if |OfLevel(more, 0)| >= L0_TRIGGER then Spot([], more, Compacting, 0, 1)
                                    else Spot([], more, Idle, 0, 0))
  {
    var front, rows := es + Puts(MEMTABLE_CAP, v), Rows(MEMTABLE_CAP + 1, v);
    var full := front + [Put(MEMTABLE_CAP as real, v)];
    Fill(h, es, front, Spot([], runs, Idle, 0, 0), MEMTABLE_CAP, v);
    RowsMore(MEMTABLE_CAP, v);
    PutComes(h, front, Spot(Rows(MEMTABLE_CAP, v), runs, Idle, 0, 0), MEMTABLE_CAP as real, v, rows, full);
    RoundIs(es, v);
    FlushComes(h, full, Spot(rows, runs, Flushing, 1, 0), more, es + Round(v));
  }

  lemma {:induction false} AskedPuts(es: seq<Event>, n: nat, v: Val)
    requires n > 0
    ensures Lookup(Asked(es + Puts(n, v)), (n - 1) as real) == Some(v)
  {
    var front := es + Puts(n - 1, v);
    assert es + Puts(n, v) == front + [Put((n - 1) as real, v)];
    assert (front + [Put((n - 1) as real, v)])[..|front|] == front;
  }

  lemma AskedRound(es: seq<Event>, v: Val)
    ensures Lookup(Asked(es + Round(v)), MEMTABLE_CAP as real) == Some(v)
  {
    var full := es + Puts(MEMTABLE_CAP + 1, v);
    AskedPuts(es, MEMTABLE_CAP + 1, v);
    assert es + Round(v) == full + [Fires(FlushPhase2)];
    assert (full + [Fires(FlushPhase2)])[..|full|] == full;
  }

  /** Three rounds, the last of which arms the compaction. */
  lemma ThreeRounds(h: Hash, u: Val, v: Val, w: Val)
    ensures Comes(h, Round(u) + Round(v) + Round(w), Spot([], [Flushed(h, u), Flushed(h, v), Flushed(h, w)], Compacting, 0, 1))
  {
    var none: seq<Event> := [];
    var a, b, c := Flushed(h, u), Flushed(h, v), Flushed(h, w);
    ThreeRuns(a, b, c);
    assert Comes(h, none, Spot([], [], Idle, 0, 0));
    RoundComes(h, none, [], u, [a]);
    assert none + Round(u) == Round(u);
    RoundComes(h, Round(u), [a], v, [a, b]);
    RoundComes(h, Round(u) + Round(v), [a, b], w, [a, b, c]);
  }

  lemma ThreeRuns(a: Run, b: Run, c: Run)
    requires a.level == 0 && b.level == 0 && c.level == 0
    ensures OfLevel([a], 0) == [a] && OfLevel([a, b], 0) == [a, b] && OfLevel([a, b, c], 0) == [a, b, c]
    ensures [] + [a] == [a] && [a] + [b] == [a, b] && [a, b] + [c] == [a, b, c]
  {
    OfLevelSnoc([], a);
    OfLevelSnoc([a], b);
    OfLevelSnoc([a, b], c);
    assert [] + [a] == [a] && [a] + [b] == [a, b] && [a, b] + [c] == [a, b, c];
  }

  lemma OfLevelSnoc(runs: seq<Run>, t: Run)
    ensures OfLevel(runs + [t], 0) == OfLevel(runs, 0) + if t.level == 0 then [t] else []
  {
    assert (runs + [t])[..|runs|] == runs;
  }

  /** The tear strikes while the compaction is pending. */
  lemma TearTimely(h: Hash, es: seq<Event>)
    requires Timely(h, es) && Due(h, es, Compact) > 0
    ensures Timely(h, es + [Fails(TornWrite), Fires(Compact), Fails(Recover)])
  {
    var torn := es + [Fails(TornWrite)];
    var compacted := torn + [Fires(Compact)];
    TimelySnoc(h, es, Fails(TornWrite));
    DueSnoc(h, es, Fails(TornWrite), Compact);
    TimelySnoc(h, torn, Fires(Compact));
    TimelySnoc(h, compacted, Fails(Recover));
    assert compacted + [Fails(Recover)] == es + [Fails(TornWrite), Fires(Compact), Fails(Recover)];
  }

  lemma AfterThree(h: Hash, es: seq<Event>)
    ensures After(h, es + [Fails(TornWrite), Fires(Compact), Fails(Recover)])
         == ApplyFault(h, CompactRuns(h, Tear(h, After(h, es))), Recover)
    ensures Asked(es + [Fails(TornWrite), Fires(Compact), Fails(Recover)]) == Asked(es)
  {
    var torn := es + [Fails(TornWrite)];
    var compacted := torn + [Fires(Compact)];
    AfterSnoc(h, es, Fails(TornWrite));
    AfterSnoc(h, torn, Fires(Compact));
    AfterSnoc(h, compacted, Fails(Recover));
    assert compacted + [Fails(Recover)] == es + [Fails(TornWrite), Fires(Compact), Fails(Recover)];
  }

  /** A history whose every timer was due and which forgets a write: the key was last given w, and reads as v. */
  lemma ForgottenWrite(h: Hash, u: Val, v: Val, w: Val)
    ensures var es := Round(u) + Round(v) + Round(w) + [Fails(TornWrite), Fires(Compact), Fails(Recover)];
      && Timely(h, es)
      && Lookup(Asked(es), MEMTABLE_CAP as real) == Some(w)
      && Answer(h, After(h, es), MEMTABLE_CAP as real) == Some(v)
  {
    var es := Round(u) + Round(v) + Round(w);
    ThreeRounds(h, u, v, w);
    TearTimely(h, es);
    AfterThree(h, es);
    AskedRound(Round(u) + Round(v), w);
    Invariant(h, es);
    Forgets(h, After(h, es), Flushed(h, u), v, w);
  }

  lemma Forgets(h: Hash, s: State, first: Run, v: Val, w: Val)
    requires Inv(h, s) && s.memtable == [] && !s.diskFull && s.runs == [first, Flushed(h, v), Flushed(h, w)] && first.level == 0
    ensures Answer(h, ApplyFault(h, CompactRuns(h, Tear(h, s)), Recover), MEMTABLE_CAP as real) == Some(v)
  {
    var k, older := MEMTABLE_CAP as real, [first, Flushed(h, v)];
    var lost := Rows(MEMTABLE_CAP + 1, w);
    assert s.runs[..2] == older;
    TearCompacts(h, s);
    TornCompactForgets(h, s, k);
    FindAt(Rows(MEMTABLE_CAP + 1, v), MEMTABLE_CAP);
    ViewSnoc([first], Flushed(h, v), k);
    assert [first] + [Flushed(h, v)] == older;
  }

  lemma TearCompacts(h: Hash, s: State)
    requires !s.diskFull && |s.runs| == 3 && s.runs[0].level == 0
    ensures Compacts(Tear(h, s))
  {
    var runs := Tear(h, s).runs;
    assert runs[0] == s.runs[0] && runs == runs[..2] + [runs[2]] && runs[..2] == [runs[0]] + [runs[1]] && [] + [runs[0]] == [runs[0]];
    OfLevelSnoc(runs[..2], runs[2]);
    OfLevelSnoc([runs[0]], runs[1]);
    OfLevelSnoc([], runs[0]);
  }
}
