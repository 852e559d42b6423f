/** Vocabulary of the storage lab, and sorted entry lists. Both engines only ever compare keys, and the
    string order, like any countable total order, embeds in the reals: a key is its place in that order. */
module StorageShared {

  datatype Option<+T> = None | Some(value: T)

  type Key = real
  type Val = string

  const MEMTABLE_CAP: nat := 4
  const L0_TRIGGER: nat := 3
  const BTREE_ORDER: nat := 3
  const BYTES_PER_ENTRY: nat := 16

  /** A value of None is a tombstone. */
  datatype Entry = Entry(key: Key, val: Option<Val>)

  /** What the user has asked for so far: the map both engines must answer from. */
  type Table = map<Key, Val>

  function Write(m: Table, k: Key, v: Option<Val>): Table {
    if v.Some? then m[k := v.value] else m - {k}
  }

  function Lookup(m: Table, k: Key): Option<Val> {
    if k in m then Some(m[k]) else None
  }

  // ---------- entry lists ----------

  /** The value of the first entry for k, if there is one. */
  function Find(s: seq<Entry>, k: Key): Option<Option<Val>> {
    if s == [] then None else if s[0].key == k then Some(s[0].val) else Find(s[1..], k)
  }

  /** The value of the last entry for k, if there is one. */
  function FindLast(s: seq<Entry>, k: Key): Option<Option<Val>> {
    if s == [] then None
    else if s[|s| - 1].key == k then Some(s[|s| - 1].val)
    else FindLast(s[..|s| - 1], k)
  }

  ghost predicate Ascending(s: seq<Entry>) {
    forall i, j :: 0 <= i < j < |s| ==> s[i].key < s[j].key
  }

  ghost predicate Unique(s: seq<Entry>) {
    forall i, j :: 0 <= i < j < |s| ==> s[i].key != s[j].key
  }

  function Without(s: seq<Entry>, k: Key): seq<Entry> {
    if s == [] then [] else if s[0].key == k then Without(s[1..], k) else [s[0]] + Without(s[1..], k)
  }

  function Insert(s: seq<Entry>, e: Entry): seq<Entry> {
    if s == [] || e.key < s[0].key then [e] + s else [s[0]] + Insert(s[1..], e)
  }

  function Sort(s: seq<Entry>): seq<Entry> {
    if s == [] then [] else Insert(Sort(s[..|s| - 1]), s[|s| - 1])
  }

  /** Replace or add one entry, keeping the list sorted by key. */
  function Upsert(s: seq<Entry>, e: Entry): seq<Entry> {
    Sort(Without(s, e.key) + [e])
  }

  /** Upserting entries one after another. */
  function Collect(s: seq<Entry>): seq<Entry> {
    if s == [] then [] else Upsert(Collect(s[..|s| - 1]), s[|s| - 1])
  }

  // ---------- their laws ----------

  lemma {:induction false} FindIn(s: seq<Entry>, k: Key)
    ensures Find(s, k).None? <==> forall i :: 0 <= i < |s| ==> s[i].key != k
    ensures Find(s, k).Some? ==> exists i :: 0 <= i < |s| && s[i] == Entry(k, Find(s, k).value)
  {
    if s != [] && s[0].key != k {
      FindIn(s[1..], k);
      if Find(s, k).Some? {
        var i :| 0 <= i < |s[1..]| && s[1..][i] == Entry(k, Find(s, k).value);
        assert s[i + 1] == Entry(k, Find(s, k).value);
      } else {
        forall i | 0 <= i < |s| ensures s[i].key != k { if i > 0 { assert s[1..][i - 1].key != k; } }
      }
    }
  }

  lemma FindAt(s: seq<Entry>, i: nat)
    requires Unique(s) && i < |s|
    ensures Find(s, s[i].key) == Some(s[i].val)
  {
    FindIn(s, s[i].key);
  }

  lemma {:induction false} WithoutFind(s: seq<Entry>, k: Key, x: Key)
    ensures Find(Without(s, k), x) == if x == k then None else Find(s, x)
  {
    if s != [] { WithoutFind(s[1..], k, x); }
  }

  lemma {:induction false} WithoutKeys(s: seq<Entry>, k: Key)
    ensures forall e :: e in Without(s, k) <==> e in s && e.key != k
  {
    if s != [] {
      WithoutKeys(s[1..], k);
      assert s == [s[0]] + s[1..];
    }
  }

  lemma {:induction false} WithoutUnique(s: seq<Entry>, k: Key)
    requires Unique(s)
    ensures Unique(Without(s, k))
  {
    if s != [] {
      WithoutUnique(s[1..], k);
      WithoutKeys(s[1..], k);
    }
  }

  lemma {:induction false} WithoutAbsent(s: seq<Entry>, k: Key)
    requires forall e :: e in s ==> e.key != k
    ensures Without(s, k) == s
  {
    if s != [] { WithoutAbsent(s[1..], k); }
  }

  lemma {:induction false} InsertKeeps(s: seq<Entry>, e: Entry, x: Key)
    requires forall f :: f in s ==> f.key != e.key
    ensures Find(Insert(s, e), x) == if x == e.key then Some(e.val) else Find(s, x)
    ensures |Insert(s, e)| == |s| + 1 && forall f :: f in Insert(s, e) <==> f == e || f in s
    ensures Ascending(s) ==> Ascending(Insert(s, e))
  {
    if s != [] {
      if e.key < s[0].key {
        assert ([e] + s)[1..] == s;
      } else {
        InsertKeeps(s[1..], e, x);
        assert s == [s[0]] + s[1..];
        assert ([s[0]] + Insert(s[1..], e))[1..] == Insert(s[1..], e);
        assert s[0] in s;
      }
    }
  }

  lemma {:induction false} FindSnoc(s: seq<Entry>, e: Entry, x: Key)
    ensures Find(s + [e], x) == if Find(s, x).Some? then Find(s, x) else if x == e.key then Some(e.val) else None
  {
    if s == [] {
      assert s + [e] == [e];
    } else {
      assert (s + [e])[1..] == s[1..] + [e];
      FindSnoc(s[1..], e, x);
    }
  }

  lemma {:induction false} SortKeeps(s: seq<Entry>, x: Key)
    requires Unique(s)
    ensures Find(Sort(s), x) == Find(s, x)
    ensures |Sort(s)| == |s| && forall f :: f in Sort(s) <==> f in s
    ensures Ascending(Sort(s))
  {
    if s != [] {
      var front, e := s[..|s| - 1], s[|s| - 1];
      SortKeeps(front, x);
      InsertKeeps(Sort(front), e, x);
      assert s == front + [e];
      FindSnoc(front, e, x);
      FindIn(front, x);
    }
  }

  lemma UpsertKeeps(s: seq<Entry>, e: Entry, x: Key)
    requires Unique(s)
    ensures Find(Upsert(s, e), x) == if x == e.key then Some(e.val) else Find(s, x)
    ensures Ascending(Upsert(s, e))
    ensures forall f :: f in Upsert(s, e) <==> f == e || (f in s && f.key != e.key)
  {
    var rest := Without(s, e.key);
    WithoutKeys(s, e.key);
    WithoutUnique(s, e.key);
    WithoutFind(s, e.key, x);
    SortKeeps(rest + [e], x);
    FindSnoc(rest, e, x);
  }

  lemma {:induction false} CollectKeeps(s: seq<Entry>, x: Key)
    ensures Find(Collect(s), x) == FindLast(s, x)
    ensures Ascending(Collect(s))
  {
    if s != [] {
      CollectKeeps(s[..|s| - 1], x);
      UpsertKeeps(Collect(s[..|s| - 1]), s[|s| - 1], x);
    }
  }

  lemma SameHeads(a: seq<Entry>, b: seq<Entry>)
    requires Ascending(a) && Ascending(b) && a != [] && b != []
    requires Find(a, a[0].key) == Find(b, a[0].key) && Find(a, b[0].key) == Find(b, b[0].key)
    ensures a[0] == b[0]
  {
    FindIn(b, a[0].key);
    FindIn(a, b[0].key);
  }

  lemma TailFinds(a: seq<Entry>, k: Key)
    requires Ascending(a) && a != []
    ensures Find(a[1..], k) == if k == a[0].key then None else Find(a, k)
  {
    FindIn(a[1..], k);
  }

  /** A sorted list is determined by what it finds. */
  lemma {:induction false} SameFinds(a: seq<Entry>, b: seq<Entry>)
    requires Ascending(a) && Ascending(b)
    requires forall k :: Find(a, k) == Find(b, k)
    ensures a == b
    decreases |a|
  {
    assert b != [] ==> Find(a, b[0].key) == Find(b, b[0].key);
    if a != [] {
      assert Find(a, a[0].key) == Find(b, a[0].key);
      SameHeads(a, b);
      forall k ensures Find(a[1..], k) == Find(b[1..], k) {
        assert Find(a, k) == Find(b, k);
        TailFinds(a, k);
        TailFinds(b, k);
      }
      SameFinds(a[1..], b[1..]);
    }
  }

  lemma {:induction false} FindLastIn(s: seq<Entry>, k: Key)
    ensures FindLast(s, k).None? <==> forall i :: 0 <= i < |s| ==> s[i].key != k
  {
    if s != [] { FindLastIn(s[..|s| - 1], k); }
  }

  lemma {:induction false} FindLastConcat(a: seq<Entry>, b: seq<Entry>, k: Key)
    ensures FindLast(a + b, k) == if FindLast(b, k).Some? then FindLast(b, k) else FindLast(a, k)
  {
    if b == [] {
      assert a + b == a;
    } else {
      assert (a + b)[..|a + b| - 1] == a + b[..|b| - 1];
      FindLastConcat(a, b[..|b| - 1], k);
    }
  }

  lemma UniqueFindLast(s: seq<Entry>, k: Key)
    requires Unique(s)
    ensures FindLast(s, k) == Find(s, k)
    decreases |s|
  {
    if s != [] {
      UniqueFindLast(s[..|s| - 1], k);
      FindSnoc(s[..|s| - 1], s[|s| - 1], k);
      assert s == s[..|s| - 1] + [s[|s| - 1]];
      FindIn(s[..|s| - 1], k);
    }
  }
}
