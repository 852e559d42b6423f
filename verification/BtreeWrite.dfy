/** A write into a leaf keeps the B-tree well formed and changes the value of one key. */
module BtreeWrite {
  import opened StorageShared
  import opened BtreePages
  import opened BtreeShape

  lemma SpliceAt<T>(s: seq<T>, i: nat, x: T, j: nat)
    requires i <= |s| && j <= |s|
    ensures |Splice(s, i, x)| == |s| + 1
    ensures Splice(s, i, x)[j] == if j < i then s[j] else if j == i then x else s[j - 1]
  {
  }

  /** Where an element of s goes in the spliced list. */
  function Shifted(i: nat, j: nat): nat { if j < i then j else j + 1 }

  lemma SpliceKept<T>(s: seq<T>, i: nat, x: T, j: nat)
    requires i <= |s| && j < |s|
    ensures |Splice(s, i, x)| == |s| + 1 && Splice(s, i, x)[Shifted(i, j)] == s[j] && Splice(s, i, x)[i] == x
  {
  }

  lemma SpliceIn<T>(s: seq<T>, i: nat, x: T, y: T)
    requires i <= |s|
    ensures y in Splice(s, i, x) <==> y == x || y in s
  {
    assert s == s[..i] + s[i..];
  }

  lemma SpliceStrict(keys: seq<Key>, i: nat, k: Key)
    requires Strict(keys) && i <= |keys|
    requires (i > 0 ==> keys[i - 1] < k) && (i < |keys| ==> k < keys[i])
    ensures Strict(Splice(keys, i, k))
  {
    var s := Splice(keys, i, k);
    forall a, b | 0 <= a < b < |s| ensures s[a] < s[b] {
      SpliceAt(keys, i, k, a);
      SpliceAt(keys, i, k, b);
    }
  }

  lemma SpliceKeysOk(keys: seq<Key>, n: nat, k: Key, i: Info)
    requires KeysOk(keys, i) && Within(k, i) && n <= |keys|
    requires (n > 0 ==> keys[n - 1] < k) && (n < |keys| ==> k < keys[n])
    ensures KeysOk(Splice(keys, n, k), i)
  {
    SpliceStrict(keys, n, k);
    forall j | 0 <= j <= |keys| ensures Within(Splice(keys, n, k)[j], i) { SpliceAt(keys, n, k, j); }
  }

  lemma InsertSlot(keys: seq<Key>, k: Key)
    requires Strict(keys) && k !in keys
    ensures var n := Below(keys, k); (n > 0 ==> keys[n - 1] < k) && (n < |keys| ==> k < keys[n])
  {
  }

  lemma LeafInsertOk(p: Page, i: Info, k: Key, v: Option<Val>)
    requires LeafOk(p, i) && Within(k, i)
    ensures LeafOk(LeafInsert(p, k, v), i)
    ensures |p.keys| <= |LeafInsert(p, k, v).keys| <= |p.keys| + 1
  {
    if k !in p.keys {
      InsertSlot(p.keys, k);
      SpliceKeysOk(p.keys, Below(p.keys, k), k, i);
    }
  }

  lemma LookAt(p: Page, j: nat)
    requires |p.vals| == |p.keys| && Strict(p.keys) && j < |p.keys|
    ensures Look(p, p.keys[j]) == p.vals[j]
  {
    var i := IndexOf(p.keys, p.keys[j]);
    assert i == j by { assert p.keys[i] == p.keys[j]; }
  }

  lemma LookSpliced(p: Page, n: nat, k: Key, v: Option<Val>, x: Key)
    requires |p.vals| == |p.keys| && Strict(p.keys) && k !in p.keys && n <= |p.keys|
    requires Strict(Splice(p.keys, n, k))
    ensures Look(p.(keys := Splice(p.keys, n, k), vals := Splice(p.vals, n, v)), x) == if x == k then v else Look(p, x)
  {
    var p' := p.(keys := Splice(p.keys, n, k), vals := Splice(p.vals, n, v));
    SpliceIn(p.keys, n, k, x);
    if x == k {
      LookAt(p', n);
    } else if x in p.keys {
      var j := IndexOf(p.keys, x);
      SpliceKept(p.keys, n, k, j);
      SpliceKept(p.vals, n, v, j);
      LookAt(p', Shifted(n, j));
    }
  }

  /** Inserting sets one key of the leaf. */
  lemma LookInsert(p: Page, i: Info, k: Key, v: Option<Val>, x: Key)
    requires LeafOk(p, i) && Within(k, i)
    ensures Look(LeafInsert(p, k, v), x) == if x == k then v else Look(p, x)
  {
    if k in p.keys {
      var j := IndexOf(p.keys, k);
      if x != k && x in p.keys { assert IndexOf(p.keys, x) != j; }
    } else {
      InsertSlot(p.keys, k);
      SpliceStrict(p.keys, Below(p.keys, k), k);
      LookSpliced(p, Below(p.keys, k), k, v, x);
    }
  }

  /** Replacing a leaf by a leaf. */
  lemma LeafReplaced(t: Tree, g: Shape, id: Id, p: Page)
    requires WellFormed(t, g) && id < t.nextPage && t.pages[id].leaf && LeafOk(p, g[id])
    ensures WellFormed(t.(pages := t.pages[id := p]), g)
  {
    var t' := t.(pages := t.pages[id := p]);
    forall x: Id | x < t'.nextPage ensures PageOk(t'.pages, g, x) && Held(t'.pages, g, t'.rootId, x) {
      assert PageOk(t.pages, g, x) && Held(t.pages, g, t.rootId, x);
    }
  }

  lemma OtherFilled(t: Tree, g: Shape, m: Table, id: Id, k: Key, v: Option<Val>, x: Id)
    requires WellFormed(t, g) && Filled(t.pages, g, x, m)
    requires id < t.nextPage && t.pages[id].leaf && Within(k, g[id]) && x < t.nextPage && x != id
    ensures Filled(t.pages, g, x, Write(m, k, v))
  {
    if t.pages[x].leaf {
      assert PageOk(t.pages, g, x) && PageOk(t.pages, g, id);
      if Within(k, g[x]) { OnlyOwner(t, g, x, id, k); }
    }
  }

  lemma LeafFilled(t: Tree, g: Shape, m: Table, id: Id, k: Key, v: Option<Val>)
    requires Filled(t.pages, g, id, m) && t.pages[id].leaf && LeafOk(t.pages[id], g[id]) && Within(k, g[id])
    ensures Filled(t.pages[id := LeafInsert(t.pages[id], k, v)], g, id, Write(m, k, v))
  {
    forall x | Within(x, g[id]) ensures Look(LeafInsert(t.pages[id], k, v), x) == Lookup(Write(m, k, v), x) {
      LookInsert(t.pages[id], g[id], k, v, x);
    }
  }

  /** The write before any split. */
  lemma WithLeafOk(t: Tree, g: Shape, m: Table, k: Key, v: Option<Val>)
    requires WellFormed(t, g) && AllFilled(t, g, m)
    ensures WellFormed(WithLeaf(t, k, v), g) && AllFilled(WithLeaf(t, k, v), g, Write(m, k, v))
  {
    PathClimbs(t, g, k);
    var id := LeafOf(t, k);
    assert PageOk(t.pages, g, id);
    LeafInsertOk(t.pages[id], g[id], k, v);
    LeafReplaced(t, g, id, LeafInsert(t.pages[id], k, v));
    var t' := WithLeaf(t, k, v);
    forall x: Id | x < t'.nextPage ensures Filled(t'.pages, g, x, Write(m, k, v)) {
      assert Filled(t.pages, g, x, m);
      if x == id { LeafFilled(t, g, m, id, k, v); } else { OtherFilled(t, g, m, id, k, v, x); }
    }
  }

  lemma WithLeafSized(t: Tree, g: Shape, k: Key, v: Option<Val>, full: bool)
    requires WellFormed(t, g) && AllSized(t, None, full)
    ensures AllSized(WithLeaf(t, k, v), Some(LeafOf(t, k)), full)
  {
    PathClimbs(t, g, k);
    assert PageOk(t.pages, g, LeafOf(t, k));
    LeafInsertOk(t.pages[LeafOf(t, k)], g[LeafOf(t, k)], k, v);
    assert Sized(t.pages[LeafOf(t, k)], LeafOf(t, k) == t.rootId, false, full);
  }
}
