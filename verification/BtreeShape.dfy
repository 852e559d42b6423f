/** What makes a page table a B-tree. A shape gives every page its rank, the interval of keys it is
    responsible for, and its parent; all the conditions are then local to a page and its children. */
module BtreeShape {
  import opened StorageShared
  import opened BtreePages

  /** Keys k with lo <= k < hi; a missing bound is infinite. */
  datatype Info = Info(rank: nat, lo: Option<Key>, hi: Option<Key>, parent: Id)

  type Shape = map<Id, Info>

  ghost predicate Within(k: Key, i: Info) {
    (i.lo.Some? ==> i.lo.value <= k) && (i.hi.Some? ==> k < i.hi.value)
  }

  ghost predicate Strict(keys: seq<Key>) {
    forall i, j :: 0 <= i < j < |keys| ==> keys[i] < keys[j]
  }

  ghost predicate KeysOk(keys: seq<Key>, i: Info) {
    Strict(keys) && forall j :: 0 <= j < |keys| ==> Within(keys[j], i)
  }

  ghost predicate LeafOk(p: Page, i: Info) {
    p.leaf && i.rank == 1 && |p.vals| == |p.keys| && p.children == [] && KeysOk(p.keys, i)
  }

  /** The interval of the j-th child. */
  function Part(keys: seq<Key>, i: Info, j: nat, id: Id): Info
    requires j <= |keys| && i.rank > 0
  {
    Info(i.rank - 1, if j == 0 then i.lo else Some(keys[j - 1]), if j == |keys| then i.hi else Some(keys[j]), id)
  }

  ghost predicate ChildrenOk(keys: seq<Key>, children: seq<Id>, i: Info, id: Id, g: Shape)
    requires i.rank > 0 && |children| == |keys| + 1
  {
    forall j :: 0 <= j < |children| ==> children[j] in g && g[children[j]] == Part(keys, i, j, id)
  }

  ghost predicate IndexOk(p: Page, i: Info, id: Id, g: Shape) {
    && !p.leaf && i.rank > 1 && p.vals == [] && |p.children| == |p.keys| + 1
    && KeysOk(p.keys, i) && ChildrenOk(p.keys, p.children, i, id, g)
  }

  ghost predicate PageOk(pages: map<Id, Page>, g: Shape, id: Id) {
    id in pages && id in g && (LeafOk(pages[id], g[id]) || IndexOk(pages[id], g[id], id, g))
  }

  /** Every page but the root is among its parent's children. */
  ghost predicate Held(pages: map<Id, Page>, g: Shape, root: Id, id: Id) {
    && id in g
    && (id != root ==> g[id].parent in pages && !pages[g[id].parent].leaf && id in pages[g[id].parent].children)
  }

  ghost predicate RootOk(t: Tree, g: Shape) {
    && t.height >= 1 && t.rootId < t.nextPage && t.rootId in g
    && g[t.rootId].rank == t.height && g[t.rootId].lo == None && g[t.rootId].hi == None
    && forall id {:trigger g[id]} :: id in g ==> g[id].rank <= t.height
  }

  ghost predicate WellFormed(t: Tree, g: Shape) {
    && (forall id: Id {:trigger id in t.pages} :: id in t.pages <==> id < t.nextPage)
    && (forall id: Id {:trigger id in g} :: id in g <==> id < t.nextPage)
    && RootOk(t, g)
    && (forall id: Id {:trigger PageOk(t.pages, g, id)} :: id < t.nextPage ==> PageOk(t.pages, g, id))
    && (forall id: Id {:trigger Held(t.pages, g, t.rootId, id)} :: id < t.nextPage ==> Held(t.pages, g, t.rootId, id))
  }

  /** Leaves hold what the table says of every key they are responsible for. */
  ghost predicate Filled(pages: map<Id, Page>, g: Shape, id: Id, m: Table) {
    id in pages && id in g &&
    (pages[id].leaf ==> forall k :: Within(k, g[id]) ==> Look(pages[id], k) == Lookup(m, k))
  }

  ghost predicate AllFilled(t: Tree, g: Shape, m: Table) {
    forall id: Id {:trigger Filled(t.pages, g, id, m)} :: id < t.nextPage ==> Filled(t.pages, g, id, m)
  }

  /** Page sizes: only the page over may have one key too many, and a full disk lets leaves grow. */
  ghost predicate Sized(p: Page, root: bool, over: bool, full: bool) {
    if p.leaf then (root || |p.keys| >= 2) && (full || |p.keys| <= BTREE_ORDER + if over then 1 else 0)
    else 1 <= |p.keys| <= BTREE_ORDER + if over then 1 else 0
  }

  ghost predicate AllSized(t: Tree, over: Option<Id>, full: bool) {
    forall id {:trigger t.pages[id]} :: id in t.pages ==> Sized(t.pages[id], id == t.rootId, over == Some(id), full)
  }

  // ---------- descent ----------

  lemma {:induction false} SlotBounds(keys: seq<Key>, k: Key)
    requires Strict(keys)
    ensures var j := Slot(keys, k); (j > 0 ==> keys[j - 1] <= k) && (j < |keys| ==> k < keys[j])
  {
    if keys != [] && k < keys[|keys| - 1] { SlotBounds(keys[..|keys| - 1], k); }
  }

  lemma ChildOwns(p: Page, i: Info, id: Id, g: Shape, k: Key)
    requires IndexOk(p, i, id, g) && Within(k, i)
    ensures Child(p, k) in g && Child(p, k) in p.children && g[Child(p, k)].rank == i.rank - 1
    ensures g[Child(p, k)].parent == id && Within(k, g[Child(p, k)])
  {
    SlotBounds(p.keys, k);
    assert g[p.children[Slot(p.keys, k)]] == Part(p.keys, i, Slot(p.keys, k), id);
  }

  /** The path to k: from the root to a leaf that owns it, one page of every rank. */
  ghost predicate Climbs(g: Shape, path: seq<Id>, k: Key) {
    && path != [] && (forall i :: 0 <= i < |path| ==> path[i] in g)
    && (forall i :: 0 <= i < |path| ==> Within(k, g[path[i]]) && g[path[i]].rank == g[path[0]].rank - i)
    && (forall i :: 0 < i < |path| ==> g[path[i]].parent == path[i - 1])
  }

  lemma {:induction false} DescendClimbs(t: Tree, g: Shape, id: Id, k: Key)
    requires WellFormed(t, g) && id < t.nextPage && Within(k, g[id])
    ensures var path := Descend(t.pages, id, k, g[id].rank);
      Climbs(g, path, k) && |path| == g[id].rank && path[|path| - 1] in t.pages && t.pages[path[|path| - 1]].leaf
    decreases g[id].rank
  {
    assert PageOk(t.pages, g, id);
    if !t.pages[id].leaf {
      ChildOwns(t.pages[id], g[id], id, g, k);
      DescendClimbs(t, g, Child(t.pages[id], k), k);
    }
  }

  lemma PathClimbs(t: Tree, g: Shape, k: Key)
    requires WellFormed(t, g)
    ensures Climbs(g, PathTo(t, k), k) && |PathTo(t, k)| == t.height
    ensures LeafOf(t, k) < t.nextPage && t.pages[LeafOf(t, k)].leaf && Within(k, g[LeafOf(t, k)])
  {
    DescendClimbs(t, g, t.rootId, k);
  }

  lemma SamePart(p: Page, i: Info, id: Id, g: Shape, a: Id, b: Id, k: Key)
    requires IndexOk(p, i, id, g) && a in p.children && b in p.children
    requires a in g && b in g && Within(k, g[a]) && Within(k, g[b])
    ensures a == b
  {
    var x :| 0 <= x < |p.children| && p.children[x] == a;
    var y :| 0 <= y < |p.children| && p.children[y] == b;
    assert g[a] == Part(p.keys, i, x, id) && g[b] == Part(p.keys, i, y, id);
  }

  /** What the parent of a page knows about it. */
  lemma ParentOwns(t: Tree, g: Shape, id: Id)
    requires WellFormed(t, g) && id < t.nextPage && id != t.rootId
    ensures var p := g[id].parent;
      && p < t.nextPage && id in t.pages[p].children && IndexOk(t.pages[p], g[p], p, g)
      && g[p].rank == g[id].rank + 1 && forall k :: Within(k, g[id]) ==> Within(k, g[p])
  {
    var p := g[id].parent;
    assert Held(t.pages, g, t.rootId, id) && PageOk(t.pages, g, p);
    var page := t.pages[p];
    var x :| 0 <= x < |page.children| && page.children[x] == id;
    assert g[id] == Part(page.keys, g[p], x, p);
    assert x > 0 ==> Within(page.keys[x - 1], g[p]);
    assert x < |page.keys| ==> Within(page.keys[x], g[p]);
  }

  lemma RootOnTop(t: Tree, g: Shape, id: Id)
    requires WellFormed(t, g) && id < t.nextPage && g[id].rank == t.height
    ensures id == t.rootId
  {
    if id != t.rootId {
      ParentOwns(t, g, id);
    }
  }

  /** Only one page of each rank is responsible for a key. */
  lemma {:induction false} OnlyOwner(t: Tree, g: Shape, a: Id, b: Id, k: Key)
    requires WellFormed(t, g) && a < t.nextPage && b < t.nextPage && g[a].rank == g[b].rank
    requires Within(k, g[a]) && Within(k, g[b])
    ensures a == b
    decreases t.height - g[a].rank
  {
    if g[a].rank == t.height {
      RootOnTop(t, g, a);
      RootOnTop(t, g, b);
    } else {
      ParentOwns(t, g, a);
      ParentOwns(t, g, b);
      OnlyOwner(t, g, g[a].parent, g[b].parent, k);
      SamePart(t.pages[g[a].parent], g[g[a].parent], g[a].parent, g, a, b, k);
    }
  }

  /** A read on a well-formed tree finds what the leaves hold. */
  lemma AnswerIs(t: Tree, g: Shape, m: Table, k: Key)
    requires WellFormed(t, g) && AllFilled(t, g, m)
    ensures Answer(t, k) == Lookup(m, k)
  {
    PathClimbs(t, g, k);
    assert Filled(t.pages, g, LeafOf(t, k), m);
  }
}
