/** Splits climbing a path: the tree stays well formed, holds the same table, and no page is left too large. */
module BtreeGrow {
  import opened StorageShared
  import opened BtreePages
  import opened BtreeShape
  import opened BtreeWrite
  import opened BtreeSplit

  // ---------- a split below the root ----------

  lemma InnerPages(t: Tree, g: Shape, cur: Id, id: Id)
    requires CanSplit(t, g, cur) && cur != t.rootId && id <= t.nextPage && g[cur].parent < t.nextPage
    ensures PageOk(SplitInner(t, cur, g[cur].parent).pages, SplitShape(t, g, cur, g[cur].parent), id)
  {
    var q := g[cur].parent;
    ParentOk(t, g, cur);
    HalvesAreOk(t, g, cur, q);
    if id < t.nextPage && id != cur && id != q { OtherOk(t, g, cur, q, id); }
  }

  lemma InnerKeeps(t: Tree, g: Shape, cur: Id)
    requires CanSplit(t, g, cur) && cur != t.rootId && g[cur].parent < t.nextPage
    ensures Keeps(t.pages, SplitInner(t, cur, g[cur].parent).pages, cur)
  {
    var q, sep := g[cur].parent, Separator(t.pages[cur]);
    var pages := SplitInner(t, cur, q).pages;
    ParentOk(t, g, cur);
    ParentOwns(t, g, cur);
    forall y | y in t.pages && y != cur
      ensures y in pages && pages[y].leaf == t.pages[y].leaf
      ensures forall z :: z in t.pages[y].children ==> z in pages[y].children
    {
      if y == q {
        forall z | z in t.pages[q].children ensures z in pages[q].children {
          AdoptChildren(t.pages[q], cur, sep, t.nextPage, z);
        }
        AdoptChildren(t.pages[q], cur, sep, t.nextPage, cur);
      }
    }
  }

  lemma InnerHeld(t: Tree, g: Shape, cur: Id, id: Id)
    requires CanSplit(t, g, cur) && cur != t.rootId && id <= t.nextPage && g[cur].parent < t.nextPage
    ensures Held(SplitInner(t, cur, g[cur].parent).pages, SplitShape(t, g, cur, g[cur].parent), t.rootId, id)
  {
    var q, sep := g[cur].parent, Separator(t.pages[cur]);
    ParentOk(t, g, cur);
    ParentOwns(t, g, cur);
    ReshapeAt(t, g, cur, q, id);
    AdoptChildren(t.pages[q], cur, sep, t.nextPage, id);
    if id < t.nextPage && id != cur && id != t.rootId {
      InnerKeeps(t, g, cur);
      StillHeld(t, g, cur, q, SplitInner(t, cur, q).pages, id);
    }
  }

  lemma InnerRoot(t: Tree, g: Shape, cur: Id)
    requires CanSplit(t, g, cur) && cur != t.rootId && g[cur].parent < t.nextPage
    ensures RootOk(SplitInner(t, cur, g[cur].parent), SplitShape(t, g, cur, g[cur].parent))
  {
    var q := g[cur].parent;
    var g' := SplitShape(t, g, cur, q);
    ReshapeAt(t, g, cur, q, t.rootId);
    if t.rootId in Kids(t.pages[cur]) { KidRank(t, g, cur, t.rootId); }
    forall id | id in g' ensures g'[id].rank <= t.height { ReshapeAt(t, g, cur, q, id); }
  }

  lemma InnerWellFormed(t: Tree, g: Shape, cur: Id)
    requires CanSplit(t, g, cur) && cur != t.rootId && g[cur].parent < t.nextPage
    ensures WellFormed(SplitInner(t, cur, g[cur].parent), SplitShape(t, g, cur, g[cur].parent))
  {
    var q := g[cur].parent;
    var t', g' := SplitInner(t, cur, q), SplitShape(t, g, cur, q);
    InnerRoot(t, g, cur);
    forall id: Id | id < t'.nextPage ensures PageOk(t'.pages, g', id) { InnerPages(t, g, cur, id); }
    forall id: Id | id < t'.nextPage ensures Held(t'.pages, g', t'.rootId, id) { InnerHeld(t, g, cur, id); }
    forall id: Id ensures id in g' <==> id < t'.nextPage { ReshapeAt(t, g, cur, q, id); }
  }

  // ---------- a split of the root ----------

  lemma GrownPage(pages: map<Id, Page>, g: Shape, id: Id, top: Id, p: Page, i: Info)
    requires PageOk(pages, g, id) && top !in pages && top !in g
    ensures PageOk(pages[top := p], g[top := i], id)
  {
    var g' := g[top := i];
    if !pages[id].leaf {
      var q := pages[id];
      forall j | 0 <= j < |q.children| ensures q.children[j] in g' && g'[q.children[j]] == Part(q.keys, g[id], j, id) {
        assert g[q.children[j]] == Part(q.keys, g[id], j, id);
      }
    }
  }

  /** The shape once the old root sits under a new one. */
  function RootShape(t: Tree, g: Shape): Shape
    requires CanSplit(t, g, t.rootId)
  {
    SplitShape(t, g, t.rootId, t.nextPage + 1)[t.nextPage + 1 := Info(t.height + 1, None, None, 0)]
  }

  lemma NewRootOk(t: Tree, g: Shape)
    requires CanSplit(t, g, t.rootId)
    ensures PageOk(SplitRoot(t).pages, RootShape(t, g), t.nextPage + 1)
  {
    ReshapeAt(t, g, t.rootId, t.nextPage + 1, t.rootId);
    ReshapeAt(t, g, t.rootId, t.nextPage + 1, t.nextPage);
    var p, i := SplitRoot(t).pages[t.nextPage + 1], Info(t.height + 1, None, None, 0);
    assert Part(p.keys, i, 0, t.nextPage + 1) == RootShape(t, g)[t.rootId];
    assert Part(p.keys, i, 1, t.nextPage + 1) == RootShape(t, g)[t.nextPage];
  }

  lemma RootPages(t: Tree, g: Shape, id: Id)
    requires CanSplit(t, g, t.rootId) && id <= t.nextPage
    ensures PageOk(SplitRoot(t).pages, RootShape(t, g), id)
  {
    var q := t.nextPage + 1;
    var pages, g' := Parted(t, t.rootId), SplitShape(t, g, t.rootId, q);
    HalvesAreOk(t, g, t.rootId, q);
    if id < t.nextPage && id != t.rootId { OtherOk(t, g, t.rootId, q, id); }
    ReshapeAt(t, g, t.rootId, q, q);
    GrownPage(pages, g', id, q, SplitRoot(t).pages[q], RootShape(t, g)[q]);
  }

  lemma RootHeld(t: Tree, g: Shape, id: Id)
    requires CanSplit(t, g, t.rootId) && id <= t.nextPage
    ensures Held(SplitRoot(t).pages, RootShape(t, g), t.nextPage + 1, id)
  {
    var q := t.nextPage + 1;
    var t' := SplitRoot(t);
    ReshapeAt(t, g, t.rootId, q, id);
    assert t'.pages[q].children == [t.rootId, t.nextPage];
    if id < t.nextPage && id != t.rootId {
      assert Keeps(t.pages, t'.pages, t.rootId);
      StillHeld(t, g, t.rootId, q, t'.pages, id);
    }
  }

  lemma RootTop(t: Tree, g: Shape)
    requires CanSplit(t, g, t.rootId)
    ensures RootOk(SplitRoot(t), RootShape(t, g))
  {
    var g' := RootShape(t, g);
    forall id | id in g' ensures g'[id].rank <= t.height + 1 { ReshapeAt(t, g, t.rootId, t.nextPage + 1, id); }
  }

  lemma RootWellFormed(t: Tree, g: Shape)
    requires CanSplit(t, g, t.rootId)
    ensures WellFormed(SplitRoot(t), RootShape(t, g))
  {
    var t', g' := SplitRoot(t), RootShape(t, g);
    RootTop(t, g);
    forall id: Id | id < t'.nextPage ensures PageOk(t'.pages, g', id) {
      if id == t.nextPage + 1 { NewRootOk(t, g); } else { RootPages(t, g, id); }
    }
    forall id: Id | id < t'.nextPage ensures Held(t'.pages, g', t'.rootId, id) {
      if id <= t.nextPage { RootHeld(t, g, id); }
    }
    forall id: Id ensures id in g' <==> id < t'.nextPage { ReshapeAt(t, g, t.rootId, t.nextPage + 1, id); }
  }

  // ---------- what the leaves hold ----------

  lemma LookLeft(p: Page, i: Info, x: Key)
    requires LeafOk(p, i) && Splittable(p) && 0 < Mid(p) < |p.keys| && x < Separator(p)
    ensures Look(LeftHalf(p), x) == Look(p, x)
  {
    var l := LeftHalf(p);
    LeafHalves(p, i);
    assert x in p.keys ==> IndexOf(p.keys, x) < Mid(p) && l.keys[IndexOf(p.keys, x)] == x;
    if x in l.keys {
      var j := IndexOf(l.keys, x);
      LookAt(l, j);
      LookAt(p, j);
    }
  }

  lemma InTail(keys: seq<Key>, mid: nat, x: Key)
    requires Strict(keys) && mid < |keys| && keys[mid] <= x
    ensures x in keys[mid..] <==> x in keys
  {
    var j := IndexOf(keys, x);
    assert j < |keys| ==> j >= mid;
    assert j < |keys| ==> keys[mid..][j - mid] == x;
  }

  lemma LookRight(p: Page, i: Info, x: Key)
    requires LeafOk(p, i) && Splittable(p) && 0 < Mid(p) < |p.keys| && Separator(p) <= x
    ensures Look(RightHalf(p), x) == Look(p, x)
  {
    var r := RightHalf(p);
    LeafHalves(p, i);
    InTail(p.keys, Mid(p), x);
    if x in r.keys {
      var j := IndexOf(r.keys, x);
      LookAt(r, j);
      LookAt(p, Mid(p) + j);
    }
  }

  lemma HalvesFilled(t: Tree, g: Shape, cur: Id, q: Id, m: Table)
    requires CanSplit(t, g, cur) && Filled(t.pages, g, cur, m)
    ensures Filled(Parted(t, cur), SplitShape(t, g, cur, q), cur, m)
    ensures Filled(Parted(t, cur), SplitShape(t, g, cur, q), t.nextPage, m)
  {
    var p, g' := t.pages[cur], SplitShape(t, g, cur, q);
    PagesOf(t, g, cur);
    ReshapeAt(t, g, cur, q, cur);
    ReshapeAt(t, g, cur, q, t.nextPage);
    if p.leaf {
      SeparatorInside(p.keys, g[cur], Mid(p));
      forall x | Within(x, g'[cur]) ensures Look(LeftHalf(p), x) == Lookup(m, x) { LookLeft(p, g[cur], x); }
      forall x | Within(x, g'[t.nextPage]) ensures Look(RightHalf(p), x) == Lookup(m, x) { LookRight(p, g[cur], x); }
    }
  }

  lemma OtherFilledToo(t: Tree, g: Shape, cur: Id, q: Id, m: Table, pages: map<Id, Page>, id: Id)
    requires CanSplit(t, g, cur) && Filled(t.pages, g, id, m) && id < t.nextPage && id != cur
    requires id in pages && pages[id].leaf == t.pages[id].leaf && (pages[id].leaf ==> pages[id] == t.pages[id])
    ensures Filled(pages, SplitShape(t, g, cur, q), id, m)
  {
    ReshapeAt(t, g, cur, q, id);
  }

  lemma InnerFilled(t: Tree, g: Shape, cur: Id, m: Table)
    requires CanSplit(t, g, cur) && cur != t.rootId && g[cur].parent < t.nextPage && AllFilled(t, g, m)
    ensures AllFilled(SplitInner(t, cur, g[cur].parent), SplitShape(t, g, cur, g[cur].parent), m)
  {
    var q := g[cur].parent;
    var t', g' := SplitInner(t, cur, q), SplitShape(t, g, cur, q);
    ParentOwns(t, g, cur);
    ParentOk(t, g, cur);
    AdoptChildren(t.pages[q], cur, Separator(t.pages[cur]), t.nextPage, cur);
    forall id: Id | id < t'.nextPage ensures Filled(t'.pages, g', id, m) {
      if id == cur || id == t.nextPage {
        assert Filled(t.pages, g, cur, m);
        HalvesFilled(t, g, cur, q, m);
      } else {
        assert Filled(t.pages, g, id, m);
        OtherFilledToo(t, g, cur, q, m, t'.pages, id);
      }
    }
  }

  lemma RootFilled(t: Tree, g: Shape, m: Table)
    requires CanSplit(t, g, t.rootId) && AllFilled(t, g, m)
    ensures AllFilled(SplitRoot(t), RootShape(t, g), m)
  {
    var q := t.nextPage + 1;
    var t', g' := SplitRoot(t), RootShape(t, g);
    forall id: Id | id < t'.nextPage ensures Filled(t'.pages, g', id, m) {
      if id == t.rootId || id == t.nextPage {
        assert Filled(t.pages, g, t.rootId, m);
        HalvesFilled(t, g, t.rootId, q, m);
      } else if id < t.nextPage {
        assert Filled(t.pages, g, id, m);
        OtherFilledToo(t, g, t.rootId, q, m, Parted(t, t.rootId), id);
      }
    }
  }

  // ---------- sizes ----------

  lemma HalvesSized(p: Page, root: bool)
    requires Splittable(p) && Sized(p, root, true, false)
    ensures Sized(LeftHalf(p), false, false, false) && Sized(RightHalf(p), false, false, false)
  {
  }

  lemma InnerSized(t: Tree, g: Shape, cur: Id)
    requires CanSplit(t, g, cur) && cur != t.rootId && g[cur].parent < t.nextPage && AllSized(t, Some(cur), false)
    ensures AllSized(SplitInner(t, cur, g[cur].parent), Some(g[cur].parent), false)
  {
    var q := g[cur].parent;
    var t' := SplitInner(t, cur, q);
    ParentOwns(t, g, cur);
    ParentOk(t, g, cur);
    assert Sized(t.pages[cur], false, true, false) && Sized(t.pages[q], q == t.rootId, false, false);
    HalvesSized(t.pages[cur], false);
    forall id | id in t'.pages ensures Sized(t'.pages[id], id == t'.rootId, id == q, false) {
      if id != cur && id != t.nextPage && id != q { assert Sized(t.pages[id], id == t.rootId, false, false); }
    }
  }

  lemma RootSized(t: Tree, g: Shape)
    requires CanSplit(t, g, t.rootId) && AllSized(t, Some(t.rootId), false)
    ensures AllSized(SplitRoot(t), None, false)
  {
    var t' := SplitRoot(t);
    assert Sized(t.pages[t.rootId], true, true, false);
    HalvesSized(t.pages[t.rootId], true);
    forall id | id in t'.pages ensures Sized(t'.pages[id], id == t'.rootId, false, false) {
      if id < t.nextPage && id != t.rootId { assert Sized(t.pages[id], false, false, false); }
    }
  }

  // ---------- the climb ----------

  /** The pages of a path up to depth, each the parent of the next. */
  ghost predicate Chain(t: Tree, g: Shape, path: seq<Id>, depth: nat) {
    && depth < |path| && path[0] == t.rootId
    && (forall i :: 0 <= i <= depth ==> path[i] < t.nextPage && path[i] in g)
    && (forall i :: 0 <= i <= depth ==> g[path[i]].rank == t.height - i)
    && (forall i :: 0 < i <= depth ==> g[path[i]].parent == path[i - 1])
  }

  lemma ChainSplittable(t: Tree, g: Shape, path: seq<Id>, depth: nat)
    requires WellFormed(t, g) && Chain(t, g, path, depth)
    ensures path[depth] in t.pages
    ensures |t.pages[path[depth]].keys| > BTREE_ORDER ==> Splittable(t.pages[path[depth]])
    ensures path[depth] != t.rootId <==> depth > 0
    ensures depth > 0 ==> path[depth - 1] in t.pages && path[depth - 1] == g[path[depth]].parent
  {
    assert PageOk(t.pages, g, path[depth]);
  }

  lemma ChainKept(t: Tree, g: Shape, path: seq<Id>, depth: nat)
    requires WellFormed(t, g) && Chain(t, g, path, depth) && depth > 0 && CanSplit(t, g, path[depth])
    ensures var q := path[depth - 1];
      q in t.pages && Chain(SplitInner(t, path[depth], q), SplitShape(t, g, path[depth], q), path, depth - 1)
  {
    var cur, q := path[depth], path[depth - 1];
    forall i | 0 <= i < depth
      ensures path[i] in SplitShape(t, g, cur, q) && SplitShape(t, g, cur, q)[path[i]] == g[path[i]]
    {
      ReshapeAt(t, g, cur, q, path[i]);
      if path[i] in Kids(t.pages[cur]) { KidRank(t, g, cur, path[i]); }
    }
  }

  // ---------- weights ----------

  /** Keys of a leaf, children of an index page. */
  function PageWeight(p: Page): nat { if p.leaf then |p.keys| else |p.children| }

  function Weight(pages: map<Id, Page>, n: nat): nat {
    if n == 0 then 0 else Weight(pages, n - 1) + if n - 1 in pages then PageWeight(pages[n - 1]) else 0
  }

  lemma {:induction false} WeightSet(pages: map<Id, Page>, id: Id, p: Page, n: nat)
    requires id in pages
    ensures Weight(pages[id := p], n) == Weight(pages, n) + if id < n then PageWeight(p) - PageWeight(pages[id]) else 0
  {
    if n > 0 { WeightSet(pages, id, p, n - 1); }
  }

  lemma {:induction false} WeightNew(pages: map<Id, Page>, id: Id, p: Page, n: nat)
    requires n <= id
    ensures Weight(pages[id := p], n) == Weight(pages, n)
  {
    if n > 0 { WeightNew(pages, id, p, n - 1); }
  }

  lemma PartedWeight(t: Tree, cur: Id)
    requires cur < t.nextPage && cur in t.pages && Splittable(t.pages[cur])
    ensures Weight(Parted(t, cur), t.nextPage + 1) == Weight(t.pages, t.nextPage)
  {
    var p := t.pages[cur];
    var halved := t.pages[cur := LeftHalf(p)];
    WeightSet(t.pages, cur, LeftHalf(p), t.nextPage);
    WeightNew(halved, t.nextPage, RightHalf(p), t.nextPage);
    assert PageWeight(LeftHalf(p)) + PageWeight(RightHalf(p)) == PageWeight(p);
  }

  /** What splits leave alone: every page but the first adds one child somewhere. */
  function Excess(t: Tree): int { Weight(t.pages, t.nextPage) - t.nextPage }

  lemma AdoptWeight(p: Page, cur: Id, sep: Key, right: Id)
    requires !p.leaf && |p.children| == |p.keys| + 1 && cur in p.children
    ensures PageWeight(Adopt(p, cur, sep, right)) == PageWeight(p) + 1
  {
    SpliceAt(p.children, IndexOf(p.children, cur) + 1, right, 0);
  }

  lemma HeavierParent(t: Tree, parted: map<Id, Page>, q: Id, p: Page, t': Tree)
    requires Weight(parted, t.nextPage + 1) == Weight(t.pages, t.nextPage) && q in parted && q <= t.nextPage
    requires PageWeight(p) == PageWeight(parted[q]) + 1
    requires t'.pages == parted[q := p] && t'.nextPage == t.nextPage + 1
    ensures Excess(t') == Excess(t)
  {
    WeightSet(parted, q, p, t.nextPage + 1);
  }

  lemma InnerWeight(t: Tree, g: Shape, cur: Id)
    requires CanSplit(t, g, cur) && cur != t.rootId && g[cur].parent < t.nextPage
    ensures Excess(SplitInner(t, cur, g[cur].parent)) == Excess(t)
  {
    var q, sep := g[cur].parent, Separator(t.pages[cur]);
    PartedWeight(t, cur);
    ParentOk(t, g, cur);
    ParentOwns(t, g, cur);
    AdoptWeight(t.pages[q], cur, sep, t.nextPage);
    HeavierParent(t, Parted(t, cur), q, Adopt(t.pages[q], cur, sep, t.nextPage), SplitInner(t, cur, q));
  }

  lemma RootWeight(t: Tree, g: Shape)
    requires CanSplit(t, g, t.rootId)
    ensures Excess(SplitRoot(t)) == Excess(t)
  {
    var p := SplitRoot(t).pages[t.nextPage + 1];
    PartedWeight(t, t.rootId);
    WeightNew(Parted(t, t.rootId), t.nextPage + 1, p, t.nextPage + 1);
    assert PageWeight(p) == 2;
  }

  ghost predicate Sound(t: Tree, g: Shape, m: Table, over: Option<Id>, full: bool) {
    WellFormed(t, g) && AllFilled(t, g, m) && AllSized(t, over, full)
  }

  lemma RoomLeft(t: Tree, cur: Id)
    requires AllSized(t, Some(cur), false) && cur in t.pages && |t.pages[cur].keys| <= BTREE_ORDER
    ensures AllSized(t, None, false)
  {
    forall id | id in t.pages ensures Sized(t.pages[id], id == t.rootId, false, false) {
      assert Sized(t.pages[id], id == t.rootId, id == cur, false);
    }
  }

  lemma {:induction false} ClimbSound(t: Tree, g: Shape, m: Table, path: seq<Id>, depth: nat) returns (g': Shape)
    requires Chain(t, g, path, depth) && Sound(t, g, m, Some(path[depth]), false)
    ensures var r := SplitFrom(t, path, depth);
      && Sound(r.tree, g', m, None, false) && Excess(r.tree) == Excess(t)
      && 2 * r.tree.nextPage - r.tree.height == 2 * t.nextPage - t.height + r.pageWrites
    decreases depth
  {
    var cur := path[depth];
    ChainSplittable(t, g, path, depth);
    if |t.pages[cur].keys| <= BTREE_ORDER {
      RoomLeft(t, cur);
      g' := g;
    } else if depth == 0 {
      RootWellFormed(t, g);
      RootFilled(t, g, m);
      RootSized(t, g);
      RootWeight(t, g);
      g' := RootShape(t, g);
    } else {
      InnerWellFormed(t, g, cur);
      InnerFilled(t, g, cur, m);
      InnerSized(t, g, cur);
      InnerWeight(t, g, cur);
      ChainKept(t, g, path, depth);
      var q := path[depth - 1];
      g' := ClimbSound(SplitInner(t, cur, q), SplitShape(t, g, cur, q), m, path, depth - 1);
    }
  }

  lemma PathChain(t: Tree, g: Shape, k: Key)
    requires WellFormed(t, g)
    ensures Chain(t, g, PathTo(t, k), |PathTo(t, k)| - 1)
  {
    PathClimbs(t, g, k);
  }

  lemma WithLeafPath(t: Tree, g: Shape, k: Key, v: Option<Val>)
    requires WellFormed(t, g)
    ensures WithLeaf(t, k, v).rootId == t.rootId && WithLeaf(t, k, v).height == t.height
    ensures Chain(WithLeaf(t, k, v), g, PathTo(t, k), |PathTo(t, k)| - 1)
  {
    PathChain(t, g, k);
  }

  lemma WithLeafWeight(t: Tree, g: Shape, k: Key, v: Option<Val>)
    requires WellFormed(t, g)
    ensures Excess(WithLeaf(t, k, v)) <= Excess(t) + 1
  {
    PathClimbs(t, g, k);
    var id := LeafOf(t, k);
    assert PageOk(t.pages, g, id);
    LeafInsertOk(t.pages[id], g[id], k, v);
    WeightSet(t.pages, id, LeafInsert(t.pages[id], k, v), t.nextPage);
  }

  /** A write keeps the tree sound for the table with that key written. */
  lemma InsertSound(t: Tree, g: Shape, m: Table, k: Key, v: Option<Val>, full: bool) returns (g': Shape)
    requires Sound(t, g, m, None, full)
    ensures var r := InsertKey(t, k, v, full);
      && Sound(r.tree, g', Write(m, k, v), None, full) && Excess(r.tree) <= Excess(t) + 1
      && 2 * r.tree.nextPage - r.tree.height == 2 * t.nextPage - t.height + r.pageWrites
  {
    WithLeafWeight(t, g, k, v);
    WithLeafOk(t, g, m, k, v);
    WithLeafSized(t, g, k, v, full);
    WithLeafPath(t, g, k, v);
    var t', leaf := WithLeaf(t, k, v), LeafOf(t, k);
    if full {
      PathClimbs(t, g, k);
      assert WithLeaf(t, k, v).pages[leaf].leaf;
      FullSized(t', leaf);
      g' := g;
    } else {
      g' := ClimbSound(t', g, Write(m, k, v), PathTo(t, k), |PathTo(t, k)| - 1);
    }
  }

  lemma FullSized(t: Tree, leaf: Id)
    requires AllSized(t, Some(leaf), true) && leaf in t.pages && t.pages[leaf].leaf
    ensures AllSized(t, None, true)
  {
    forall id | id in t.pages ensures Sized(t.pages[id], id == t.rootId, false, true) {
      assert Sized(t.pages[id], id == t.rootId, id == leaf, true);
    }
  }
}
