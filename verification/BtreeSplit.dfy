/** One split keeps the B-tree well formed: the page, its new right sibling, and the parent that adopts it. */
module BtreeSplit {
  import opened StorageShared
  import opened BtreePages
  import opened BtreeShape
  import opened BtreeWrite

  ghost predicate CanSplit(t: Tree, g: Shape, cur: Id) {
    WellFormed(t, g) && cur < t.nextPage && Splittable(t.pages[cur])
  }

  function Kids(p: Page): seq<Id>
    requires Splittable(p)
  {
    RightHalf(p).children
  }

  /** The shape with some pages under a new parent. */
  function Reparent(g: Shape, kids: seq<Id>, right: Id): (r: Shape)
    ensures forall x :: x in r <==> x in g
    ensures forall x :: x in r ==> r[x] == if x in kids then g[x].(parent := right) else g[x]
  {
    if kids == [] then g
    else
      var r, k := Reparent(g, kids[..|kids| - 1], right), kids[|kids| - 1];
      assert kids == kids[..|kids| - 1] + [k];
      if k in r then r[k := r[k].(parent := right)] else r
  }

  /** The shape after cur has given its upper half to right, both now under q. */
  function Reshape(g: Shape, cur: Id, kids: seq<Id>, right: Id, sep: Key, q: Id): Shape
    requires cur in g
  {
    Reparent(g, kids, right)[cur := g[cur].(hi := Some(sep), parent := q)][right := Info(g[cur].rank, Some(sep), g[cur].hi, q)]
  }

  function SplitShape(t: Tree, g: Shape, cur: Id, q: Id): Shape
    requires CanSplit(t, g, cur)
  {
    Reshape(g, cur, Kids(t.pages[cur]), t.nextPage, Separator(t.pages[cur]), q)
  }

  /** The separator lies strictly inside the interval of the page. */
  lemma SeparatorInside(keys: seq<Key>, i: Info, mid: nat)
    requires KeysOk(keys, i) && 0 < mid < |keys|
    ensures Within(keys[mid], i) && (i.lo.Some? ==> i.lo.value < keys[mid])
  {
    assert Within(keys[0], i) && Within(keys[mid], i) && keys[0] < keys[mid];
  }

  lemma SplitKeys(keys: seq<Key>, i: Info, mid: nat, n: nat)
    requires KeysOk(keys, i) && 0 < mid < |keys| && mid <= n <= |keys|
    ensures KeysOk(keys[..mid], i.(hi := Some(keys[mid])))
    ensures KeysOk(keys[n..], i.(lo := Some(keys[mid])))
  {
    forall j | 0 <= j < mid ensures Within(keys[..mid][j], i.(hi := Some(keys[mid]))) { assert Within(keys[j], i); }
    forall j | 0 <= j < |keys| - n ensures Within(keys[n..][j], i.(lo := Some(keys[mid]))) {
      assert Within(keys[n + j], i);
      assert keys[mid] <= keys[n + j];
    }
  }

  lemma PagesOf(t: Tree, g: Shape, cur: Id)
    requires CanSplit(t, g, cur)
    ensures var p := t.pages[cur];
      && 0 < Mid(p) < |p.keys| - 1 && KeysOk(p.keys, g[cur])
      && (p.leaf ==> LeafOk(p, g[cur])) && (!p.leaf ==> IndexOk(p, g[cur], cur, g))
  {
    assert PageOk(t.pages, g, cur);
  }

  // ---------- the two halves ----------

  lemma LeafHalves(p: Page, i: Info)
    requires Splittable(p) && LeafOk(p, i) && 0 < Mid(p) < |p.keys|
    ensures LeafOk(LeftHalf(p), i.(hi := Some(Separator(p))))
    ensures LeafOk(RightHalf(p), i.(lo := Some(Separator(p))))
  {
    SplitKeys(p.keys, i, Mid(p), Mid(p));
  }

  lemma ChildrenDistinct(p: Page, i: Info, id: Id, g: Shape, a: nat, b: nat)
    requires IndexOk(p, i, id, g) && a < b < |p.children|
    ensures p.children[a] != p.children[b]
  {
    assert g[p.children[a]] == Part(p.keys, i, a, id) && g[p.children[b]] == Part(p.keys, i, b, id);
    assert Within(p.keys[a], i);
    assert b < |p.keys| ==> p.keys[a] < p.keys[b];
  }

  lemma KidIs(p: Page, i: Info, id: Id, g: Shape, x: Id)
    requires Splittable(p) && IndexOk(p, i, id, g) && x in Kids(p)
    ensures x in g && g[x].parent == id && g[x].rank == i.rank - 1 && x in p.children
  {
    var j :| 0 <= j < |Kids(p)| && Kids(p)[j] == x;
    assert g[p.children[Mid(p) + 1 + j]] == Part(p.keys, i, Mid(p) + 1 + j, id);
  }

  lemma LeftKept(p: Page, i: Info, id: Id, g: Shape, j: nat)
    requires Splittable(p) && IndexOk(p, i, id, g) && j <= Mid(p)
    ensures p.children[j] !in Kids(p)
  {
    forall x | 0 <= x < |Kids(p)| ensures Kids(p)[x] != p.children[j] {
      ChildrenDistinct(p, i, id, g, j, Mid(p) + 1 + x);
    }
  }

  lemma IndexHalves(p: Page, i: Info, id: Id, g: Shape, right: Id, g': Shape)
    requires Splittable(p) && IndexOk(p, i, id, g) && 0 < Mid(p) < |p.keys| - 1
    requires forall x :: x in p.children && x !in Kids(p) ==> x in g' && g'[x] == g[x]
    requires forall x :: x in Kids(p) ==> x in g' && g'[x] == g[x].(parent := right)
    ensures IndexOk(LeftHalf(p), i.(hi := Some(Separator(p))), id, g')
    ensures IndexOk(RightHalf(p), i.(lo := Some(Separator(p))), right, g')
  {
    var mid := Mid(p);
    SplitKeys(p.keys, i, mid, mid + 1);
    var l, r := LeftHalf(p), RightHalf(p);
    forall j | 0 <= j < |l.children|
      ensures l.children[j] in g' && g'[l.children[j]] == Part(l.keys, i.(hi := Some(Separator(p))), j, id)
    {
      LeftKept(p, i, id, g, j);
      assert g[p.children[j]] == Part(p.keys, i, j, id);
    }
    forall j | 0 <= j < |r.children|
      ensures r.children[j] in g' && g'[r.children[j]] == Part(r.keys, i.(lo := Some(Separator(p))), j, right)
    {
      assert g[p.children[mid + 1 + j]] == Part(p.keys, i, mid + 1 + j, id);
      assert r.children[j] in Kids(p);
    }
  }

  lemma ReshapeAt(t: Tree, g: Shape, cur: Id, q: Id, x: Id)
    requires CanSplit(t, g, cur)
    ensures var g' := SplitShape(t, g, cur, q); (x in g' <==> x <= t.nextPage)
    ensures var g' := SplitShape(t, g, cur, q);
      && (x == cur ==> g'[x] == g[x].(hi := Some(Separator(t.pages[cur])), parent := q))
      && (x == t.nextPage ==> g'[x] == g[cur].(lo := Some(Separator(t.pages[cur])), parent := q))
      && (x < t.nextPage && x != cur ==> g'[x] == if x in Kids(t.pages[cur]) then g[x].(parent := t.nextPage) else g[x])
  {
  }

  /** A child's rank is one below its page's. */
  lemma ChildRank(t: Tree, g: Shape, id: Id, x: Id)
    requires WellFormed(t, g) && id < t.nextPage && x in t.pages[id].children
    ensures x < t.nextPage && g[x].rank + 1 == g[id].rank && g[x].parent == id && !t.pages[id].leaf
  {
    assert PageOk(t.pages, g, id);
    var p := t.pages[id];
    var j :| 0 <= j < |p.children| && p.children[j] == x;
    assert g[x] == Part(p.keys, g[id], j, id);
  }

  lemma KidRank(t: Tree, g: Shape, cur: Id, x: Id)
    requires CanSplit(t, g, cur) && x in Kids(t.pages[cur])
    ensures x < t.nextPage && g[x].rank + 1 == g[cur].rank && g[x].parent == cur && x in t.pages[cur].children
  {
    PagesOf(t, g, cur);
    KidIs(t.pages[cur], g[cur], cur, g, x);
  }

  ghost predicate HalvesOk(t: Tree, g: Shape, cur: Id, q: Id)
    requires CanSplit(t, g, cur)
  {
    PageOk(Parted(t, cur), SplitShape(t, g, cur, q), cur) && PageOk(Parted(t, cur), SplitShape(t, g, cur, q), t.nextPage)
  }

  lemma LeafHalvesOk(t: Tree, g: Shape, cur: Id, q: Id)
    requires CanSplit(t, g, cur) && t.pages[cur].leaf
    ensures HalvesOk(t, g, cur, q)
  {
    PagesOf(t, g, cur);
    ReshapeAt(t, g, cur, q, cur);
    ReshapeAt(t, g, cur, q, t.nextPage);
    LeafHalves(t.pages[cur], g[cur]);
  }

  /** What the new shape says of the children of the page that splits. */
  lemma KidsReshaped(t: Tree, g: Shape, cur: Id, q: Id)
    requires CanSplit(t, g, cur)
    ensures var g' := SplitShape(t, g, cur, q);
      && (forall x :: x in t.pages[cur].children && x !in Kids(t.pages[cur]) ==> x in g && x in g' && g'[x] == g[x])
      && (forall x :: x in Kids(t.pages[cur]) ==> x in g && x in g' && g'[x] == g[x].(parent := t.nextPage))
  {
    var g', p := SplitShape(t, g, cur, q), t.pages[cur];
    forall x | x in p.children && x !in Kids(p) ensures x in g && x in g' && g'[x] == g[x] {
      ChildRank(t, g, cur, x);
      ReshapeAt(t, g, cur, q, x);
    }
    forall x | x in Kids(p) ensures x in g && x in g' && g'[x] == g[x].(parent := t.nextPage) {
      KidRank(t, g, cur, x);
      ReshapeAt(t, g, cur, q, x);
    }
  }

  lemma IndexPagesOk(pages: map<Id, Page>, p: Page, i: Info, cur: Id, right: Id, q: Id, g: Shape, g': Shape)
    requires Splittable(p) && IndexOk(p, i, cur, g) && 0 < Mid(p) < |p.keys| - 1
    requires forall x :: x in p.children && x !in Kids(p) ==> x in g' && g'[x] == g[x]
    requires forall x :: x in Kids(p) ==> x in g' && g'[x] == g[x].(parent := right)
    requires cur in pages && pages[cur] == LeftHalf(p) && right in pages && pages[right] == RightHalf(p)
    requires cur in g' && g'[cur] == i.(hi := Some(Separator(p)), parent := q)
    requires right in g' && g'[right] == i.(lo := Some(Separator(p)), parent := q)
    ensures PageOk(pages, g', cur) && PageOk(pages, g', right)
  {
    IndexHalves(p, i, cur, g, right, g');
    Rehoused(LeftHalf(p), i.(hi := Some(Separator(p))), cur, g', q);
    Rehoused(RightHalf(p), i.(lo := Some(Separator(p))), right, g', q);
  }

  /** The parent of a page does not matter to the page. */
  lemma Rehoused(p: Page, i: Info, id: Id, g: Shape, q: Id)
    requires IndexOk(p, i, id, g)
    ensures IndexOk(p, i.(parent := q), id, g)
  {
    forall j | 0 <= j < |p.children| ensures p.children[j] in g && g[p.children[j]] == Part(p.keys, i.(parent := q), j, id) {
      assert g[p.children[j]] == Part(p.keys, i, j, id);
    }
    forall j | 0 <= j < |p.keys| ensures Within(p.keys[j], i.(parent := q)) { assert Within(p.keys[j], i); }
  }

  lemma IndexHalvesOk(t: Tree, g: Shape, cur: Id, q: Id)
    requires CanSplit(t, g, cur) && !t.pages[cur].leaf
    ensures HalvesOk(t, g, cur, q)
  {
    PagesOf(t, g, cur);
    ReshapeAt(t, g, cur, q, cur);
    ReshapeAt(t, g, cur, q, t.nextPage);
    KidsReshaped(t, g, cur, q);
    IndexPagesOk(Parted(t, cur), t.pages[cur], g[cur], cur, t.nextPage, q, g, SplitShape(t, g, cur, q));
  }

  lemma HalvesAreOk(t: Tree, g: Shape, cur: Id, q: Id)
    requires CanSplit(t, g, cur)
    ensures HalvesOk(t, g, cur, q)
  {
    if t.pages[cur].leaf { LeafHalvesOk(t, g, cur, q); } else { IndexHalvesOk(t, g, cur, q); }
  }

  /** A page that is neither split nor the parent of the split page. */
  lemma OtherOk(t: Tree, g: Shape, cur: Id, q: Id, id: Id)
    requires CanSplit(t, g, cur) && id < t.nextPage && id != cur && (cur != t.rootId ==> id != g[cur].parent)
    ensures PageOk(Parted(t, cur), SplitShape(t, g, cur, q), id)
  {
    assert PageOk(t.pages, g, id);
    var p, g' := t.pages[id], SplitShape(t, g, cur, q);
    ReshapeAt(t, g, cur, q, id);
    if !p.leaf {
      forall j | 0 <= j < |p.children| ensures p.children[j] in g' && g'[p.children[j]] == Part(p.keys, g'[id], j, id) {
        var x := p.children[j];
        assert g[x] == Part(p.keys, g[id], j, id);
        ChildRank(t, g, id, x);
        ReshapeAt(t, g, cur, q, x);
        assert x != cur by { assert cur == t.rootId ==> g[id].rank <= t.height; }
        if x in Kids(t.pages[cur]) { KidRank(t, g, cur, x); }
      }
    }
  }

  // ---------- the parent ----------

  /** The parent after adopting the new page, given what it knew of the page that split. */
  lemma AdoptKeys(p: Page, i: Info, id: Id, g: Shape, cur: Id, sep: Key, right: Id)
    requires IndexOk(p, i, id, g) && cur in p.children && cur in g
    requires Within(sep, g[cur]) && Within(sep, i) && (g[cur].lo.Some? ==> g[cur].lo.value < sep)
    ensures var n := IndexOf(p.children, cur);
      n <= |p.keys| && Adopt(p, cur, sep, right) == p.(keys := Splice(p.keys, n, sep), children := Splice(p.children, n + 1, right))
    ensures KeysOk(Adopt(p, cur, sep, right).keys, i)
  {
    var n := IndexOf(p.children, cur);
    assert g[cur] == Part(p.keys, i, n, id);
    SpliceKeysOk(p.keys, n, sep, i);
  }

  lemma AdoptPart(keys: seq<Key>, i: Info, id: Id, n: nat, sep: Key, j: nat)
    requires i.rank > 0 && n <= |keys| && j <= |keys| + 1
    ensures |Splice(keys, n, sep)| == |keys| + 1
    ensures Part(Splice(keys, n, sep), i, j, id)
         == if j < n then Part(keys, i, j, id)
            else if j == n then Part(keys, i, n, id).(hi := Some(sep))
            else if j == n + 1 then Part(keys, i, n, id).(lo := Some(sep))
            else Part(keys, i, j - 1, id)
  {
    SpliceAt(keys, n, sep, n);
    if j <= |keys| { SpliceAt(keys, n, sep, j); }
    if j > 0 { SpliceAt(keys, n, sep, j - 1); }
  }

  lemma AdoptOk(p: Page, i: Info, id: Id, g: Shape, cur: Id, sep: Key, right: Id, g': Shape)
    requires IndexOk(p, i, id, g) && cur in p.children && cur in g
    requires Within(sep, g[cur]) && Within(sep, i) && (g[cur].lo.Some? ==> g[cur].lo.value < sep)
    requires forall x :: x in p.children && x != cur ==> x in g' && g'[x] == g[x]
    requires cur in g' && g'[cur] == g[cur].(hi := Some(sep))
    requires right in g' && g'[right] == g[cur].(lo := Some(sep))
    ensures IndexOk(Adopt(p, cur, sep, right), i, id, g')
  {
    var p' := Adopt(p, cur, sep, right);
    var n := IndexOf(p.children, cur);
    AdoptKeys(p, i, id, g, cur, sep, right);
    forall j | 0 <= j < |p'.children| ensures p'.children[j] in g' && g'[p'.children[j]] == Part(p'.keys, i, j, id) {
      SpliceAt(p.children, n + 1, right, j);
      AdoptPart(p.keys, i, id, n, sep, j);
      assert g[cur] == Part(p.keys, i, n, id);
      var o := if j <= n then j else j - 1;
      assert g[p.children[o]] == Part(p.keys, i, o, id);
      if o < n { ChildrenDistinct(p, i, id, g, o, n); }
      if n < o { ChildrenDistinct(p, i, id, g, n, o); }
    }
  }

  lemma ParentOk(t: Tree, g: Shape, cur: Id)
    requires CanSplit(t, g, cur) && cur != t.rootId
    ensures var q := g[cur].parent;
      && q < t.nextPage && q != cur && Parted(t, cur)[q] == t.pages[q]
      && PageOk(SplitInner(t, cur, q).pages, SplitShape(t, g, cur, q), q)
  {
    var q := g[cur].parent;
    var g', sep := SplitShape(t, g, cur, q), Separator(t.pages[cur]);
    ParentOwns(t, g, cur);
    PagesOf(t, g, cur);
    SeparatorInside(t.pages[cur].keys, g[cur], Mid(t.pages[cur]));
    forall x | x in t.pages[q].children && x != cur ensures x in g' && g'[x] == g[x] {
      ChildRank(t, g, q, x);
      ReshapeAt(t, g, cur, q, x);
      if x in Kids(t.pages[cur]) { KidRank(t, g, cur, x); }
    }
    ReshapeAt(t, g, cur, q, cur);
    ReshapeAt(t, g, cur, q, t.nextPage);
    ReshapeAt(t, g, cur, q, q);
    if q in Kids(t.pages[cur]) { KidRank(t, g, cur, q); }
    AdoptOk(t.pages[q], g[q], q, g, cur, sep, t.nextPage, g');
  }

  lemma AdoptChildren(p: Page, cur: Id, sep: Key, right: Id, x: Id)
    requires |p.children| == |p.keys| + 1 && cur in p.children
    ensures x in Adopt(p, cur, sep, right).children <==> x == right || x in p.children
    ensures Adopt(p, cur, sep, right).leaf == p.leaf
  {
    SpliceIn(p.children, IndexOf(p.children, cur) + 1, right, x);
  }

  // ---------- who holds whom ----------

  lemma HalvesChildren(p: Page, x: Id)
    requires Splittable(p) && !p.leaf
    ensures x in p.children ==> x in LeftHalf(p).children || x in Kids(p)
    ensures !RightHalf(p).leaf && !LeftHalf(p).leaf
  {
    assert p.children == LeftHalf(p).children + Kids(p);
  }

  /** No page but cur loses a child. */
  ghost predicate Keeps(before: map<Id, Page>, pages: map<Id, Page>, cur: Id) {
    forall y {:trigger before[y]} :: y in before && y != cur ==>
      && y in pages && pages[y].leaf == before[y].leaf
      && forall z :: z in before[y].children ==> z in pages[y].children
  }

  /** Pages other than the split one and its sibling stay held, if the table keeps the halves and no page
      loses a child. */
  lemma StillHeld(t: Tree, g: Shape, cur: Id, q: Id, pages: map<Id, Page>, x: Id)
    requires CanSplit(t, g, cur) && x < t.nextPage && x != cur && x != t.rootId
    requires cur in pages && pages[cur] == LeftHalf(t.pages[cur])
    requires t.nextPage in pages && pages[t.nextPage] == RightHalf(t.pages[cur])
    requires Keeps(t.pages, pages, cur)
    ensures Held(pages, SplitShape(t, g, cur, q), t.rootId, x)
  {
    ParentOwns(t, g, x);
    ReshapeAt(t, g, cur, q, x);
    if x in Kids(t.pages[cur]) {
      KidRank(t, g, cur, x);
      ChildRank(t, g, cur, x);
      HalvesChildren(t.pages[cur], x);
    } else if g[x].parent == cur {
      HalvesChildren(t.pages[cur], x);
    }
  }
}
