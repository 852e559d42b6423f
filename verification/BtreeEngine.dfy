/** The loops of the B-tree engine, proved against the functions that describe them. */
module BtreeEngine {
  import opened StorageShared
  import opened BtreePages
  import opened BtreeShape
  import opened BtreeWrite
  import opened BtreeSplit
  import opened BtreeGrow
  import opened Btree

  /** The search for k has reached pid, having recorded path. */
  ghost predicate OnPath(t: Tree, g: Shape, k: Key, path: seq<Id>, pid: Id) {
    && WellFormed(t, g) && pid < t.nextPage && Within(k, g[pid])
    && path != [] && path[|path| - 1] == pid
    && path[..|path| - 1] + Descend(t.pages, pid, k, g[pid].rank) == PathTo(t, k)
  }

  lemma OnPathStep(t: Tree, g: Shape, k: Key, path: seq<Id>, pid: Id)
    requires OnPath(t, g, k, path, pid) && !t.pages[pid].leaf
    ensures var child := Child(t.pages[pid], k);
      child in g && g[child].rank + 1 == g[pid].rank && OnPath(t, g, k, path + [child], child)
  {
    assert PageOk(t.pages, g, pid);
    var child := Child(t.pages[pid], k);
    ChildOwns(t.pages[pid], g[pid], pid, g, k);
    assert (path + [child])[..|path|] == path == path[..|path| - 1] + [pid];
  }

  lemma OnPathEnd(t: Tree, g: Shape, k: Key, path: seq<Id>, pid: Id)
    requires OnPath(t, g, k, path, pid) && t.pages[pid].leaf
    ensures path == PathTo(t, k) && pid == LeafOf(t, k)
  {
    assert path == path[..|path| - 1] + [pid];
  }

  method ChooseChild(page: Page, k: Key) returns (child: Id)
    requires |page.children| == |page.keys| + 1
    ensures child == Child(page, k)
  {
    child := page.children[0];
    for i := 0 to |page.keys|
      invariant child == page.children[Slot(page.keys[..i], k)]
    {
      assert page.keys[..i + 1][..i] == page.keys[..i];
      if k >= page.keys[i] { child := page.children[i + 1]; }
    }
    assert page.keys[..|page.keys|] == page.keys;
  }

  method FindLeaf(t: Tree, k: Key, ghost g: Shape) returns (leafId: Id, visited: nat, path: seq<Id>)
    requires WellFormed(t, g)
    ensures path == PathTo(t, k) && leafId == LeafOf(t, k) && visited == |path|
  {
    var pid := t.rootId;
    path := [pid];
    while !t.pages[pid].leaf
      invariant OnPath(t, g, k, path, pid)
      decreases g[pid].rank
    {
      assert PageOk(t.pages, g, pid);
      OnPathStep(t, g, k, path, pid);
      pid := ChooseChild(t.pages[pid], k);
      path := path + [pid];
    }
    OnPathEnd(t, g, k, path, pid);
    return pid, |path|, path;
  }

  method BtreeGet(s: State, k: Key, ghost g: Shape) returns (s': State, value: Option<Val>)
    requires WellFormed(s.tree, g)
    ensures s' == AfterGet(s, k) && value == Answer(s.tree, k)
  {
    var leafId, visited, path := FindLeaf(s.tree, k, g);
    PathClimbs(s.tree, g, k);
    assert PageOk(s.tree.pages, g, leafId);
    var leaf := s.tree.pages[leafId];
    var i := IndexOf(leaf.keys, k);
    value := if i < |leaf.keys| then leaf.vals[i] else None;
    s' := s.(lastReadCost := visited, diskReads := s.diskReads + visited);
  }

  lemma BelowIs(keys: seq<Key>, k: Key, i: nat)
    requires i <= |keys| && (forall j :: 0 <= j < i ==> keys[j] < k) && (i < |keys| ==> keys[i] >= k)
    ensures Below(keys, k) == i
  {
  }

  method InsertIntoLeaf(leaf: Page, k: Key, v: Option<Val>) returns (leaf': Page)
    requires |leaf.vals| == |leaf.keys|
    ensures leaf' == LeafInsert(leaf, k, v)
  {
    var keys, vals := leaf.keys, leaf.vals;
    var at := IndexOf(keys, k);
    if at < |keys| {
      vals := vals[at := v];
    } else {
      var i := 0;
      while i < |keys| && keys[i] < k
        invariant i <= |keys| && forall j :: 0 <= j < i ==> keys[j] < k
      {
        i := i + 1;
      }
      BelowIs(keys, k, i);
      keys, vals := Splice(keys, i, k), Splice(vals, i, v);
    }
    leaf' := leaf.(keys := keys, vals := vals);
  }

  /** The splits have climbed to path[depth], which may overflow. */
  ghost predicate Climbing(t: Tree, g: Shape, m: Table, path: seq<Id>, depth: nat) {
    Chain(t, g, path, depth) && Sound(t, g, m, Some(path[depth]), false)
  }

  /** What is left of the climb, after some page writes. */
  ghost predicate Remains(goal: Grown, t: Tree, path: seq<Id>, depth: nat, done: nat)
    requires depth < |path|
  {
    goal == Grown(SplitFrom(t, path, depth).tree, SplitFrom(t, path, depth).pageWrites + done)
  }

  lemma ClimbingEnd(goal: Grown, t: Tree, path: seq<Id>, depth: nat, done: nat)
    requires depth < |path| && Remains(goal, t, path, depth, done)
    requires path[depth] in t.pages && |t.pages[path[depth]].keys| <= BTREE_ORDER
    ensures goal == Grown(t, done)
  {
  }

  lemma ClimbingRoot(goal: Grown, t: Tree, g: Shape, m: Table, path: seq<Id>, depth: nat, done: nat)
    requires Climbing(t, g, m, path, depth) && path[depth] == t.rootId && Remains(goal, t, path, depth, done)
    requires path[depth] in t.pages && |t.pages[path[depth]].keys| > BTREE_ORDER
    ensures Splittable(t.pages[t.rootId]) && goal == Grown(SplitRoot(t), done + 3)
  {
    ChainSplittable(t, g, path, depth);
  }

  lemma ClimbingInner(goal: Grown, t: Tree, g: Shape, m: Table, path: seq<Id>, depth: nat, done: nat)
    returns (g': Shape)
    requires Climbing(t, g, m, path, depth) && path[depth] != t.rootId && Remains(goal, t, path, depth, done)
    requires path[depth] in t.pages && |t.pages[path[depth]].keys| > BTREE_ORDER
    ensures depth > 0 && Splittable(t.pages[path[depth]]) && path[depth - 1] in t.pages
    ensures var t' := SplitInner(t, path[depth], path[depth - 1]);
      && Climbing(t', g', m, path, depth - 1) && path[depth - 1] in t'.pages
      && Remains(goal, t', path, depth - 1, done + 2)
  {
    ChainSplittable(t, g, path, depth);
    InnerSound(t, g, m, path[depth]);
    ChainKept(t, g, path, depth);
    g' := SplitShape(t, g, path[depth], path[depth - 1]);
  }

  lemma InnerSound(t: Tree, g: Shape, m: Table, cur: Id)
    requires CanSplit(t, g, cur) && cur != t.rootId && g[cur].parent < t.nextPage && Sound(t, g, m, Some(cur), false)
    ensures Sound(SplitInner(t, cur, g[cur].parent), SplitShape(t, g, cur, g[cur].parent), m, Some(g[cur].parent), false)
  {
    InnerWellFormed(t, g, cur);
    InnerFilled(t, g, cur, m);
    InnerSized(t, g, cur);
  }

  /** Halves a page, the upper half going to a new page. */
  method HalvePage(t: Tree, cur: Id) returns (pages: map<Id, Page>, sep: Key)
    requires cur in t.pages && Splittable(t.pages[cur])
    ensures pages == Parted(t, cur) && sep == Separator(t.pages[cur])
  {
    var node := t.pages[cur];
    var mid := |node.keys| / 2;
    var left, right;
    if node.leaf {
      left := node.(keys := node.keys[..mid], vals := node.vals[..mid]);
      right := Page(true, node.keys[mid..], node.vals[mid..], []);
      sep := right.keys[0];
    } else {
      sep := node.keys[mid];
      left := node.(keys := node.keys[..mid], children := node.children[..mid + 1]);
      right := Page(false, node.keys[mid + 1..], [], node.children[mid + 1..]);
    }
    pages := t.pages[cur := left][t.nextPage := right];
  }

  /** Splits the pages of a path upwards for as long as they overflow. */
  method SplitUp(t: Tree, path: seq<Id>, ghost g: Shape, ghost m: Table)
    returns (t': Tree, diskWrites: nat, bytesWritten: nat)
    requires path != [] && Climbing(t, g, m, path, |path| - 1)
    ensures Grown(t', diskWrites) == SplitFrom(t, path, |path| - 1)
    ensures bytesWritten == diskWrites * BYTES_PER_ENTRY
  {
    t', diskWrites, bytesWritten := t, 0, 0;
    var depth: nat := |path| - 1;
    ghost var shape := g;
    ghost var goal := SplitFrom(t, path, depth);
    ChainSplittable(t', shape, path, depth);
    while |t'.pages[path[depth]].keys| > BTREE_ORDER
      invariant depth < |path| && path[depth] in t'.pages
      invariant Climbing(t', shape, m, path, depth)
      invariant Remains(goal, t', path, depth, diskWrites)
      invariant bytesWritten == diskWrites * BYTES_PER_ENTRY
      decreases depth
    {
      if path[depth] == t'.rootId {
        ClimbingRoot(goal, t', shape, m, path, depth, diskWrites);
        t' := RaiseRoot(t');
        diskWrites, bytesWritten := diskWrites + 3, bytesWritten + 3 * BYTES_PER_ENTRY;
        return;
      }
      shape := ClimbingInner(goal, t', shape, m, path, depth, diskWrites);
      t' := LiftSeparator(t', path[depth], path[depth - 1]);
      diskWrites, bytesWritten := diskWrites + 2, bytesWritten + 2 * BYTES_PER_ENTRY;
      depth := depth - 1;
    }
    ClimbingEnd(goal, t', path, depth, diskWrites);
  }

  method RaiseRoot(t: Tree) returns (t': Tree)
    requires t.rootId in t.pages && Splittable(t.pages[t.rootId])
    ensures t' == SplitRoot(t)
  {
    var pages, separator := HalvePage(t, t.rootId);
    var newRootId := t.nextPage + 1;
    pages := pages[newRootId := Page(false, [separator], [], [t.rootId, t.nextPage])];
    t' := Tree(pages, newRootId, t.height + 1, t.nextPage + 2);
  }

  method LiftSeparator(t: Tree, curId: Id, parentId: Id) returns (t': Tree)
    requires curId in t.pages && Splittable(t.pages[curId]) && parentId in t.pages
    ensures t' == SplitInner(t, curId, parentId)
  {
    var pages, separator := HalvePage(t, curId);
    pages := pages[parentId := Adopt(pages[parentId], curId, separator, t.nextPage)];
    t' := t.(pages := pages, nextPage := t.nextPage + 1);
  }

  /** A write, and its splits if the leaf overflows. */
  method Grow(t: Tree, k: Key, v: Option<Val>, full: bool, ghost g: Shape, ghost m: Table)
    returns (t': Tree, diskWrites: nat, bytesWritten: nat, overflowed: bool)
    requires Sound(t, g, m, None, full)
    ensures Grown(t', diskWrites) == InsertKey(t, k, v, full) && bytesWritten == diskWrites * BYTES_PER_ENTRY
    ensures overflowed == Overflows(t, k, v)
  {
    var leafId, visited, path := FindLeaf(t, k, g);
    PathClimbs(t, g, k);
    assert PageOk(t.pages, g, leafId);
    var leaf := InsertIntoLeaf(t.pages[leafId], k, v);
    t' := t.(pages := t.pages[leafId := leaf]);
    assert t' == WithLeaf(t, k, v);
    diskWrites, bytesWritten, overflowed := 0, 0, |leaf.keys| > BTREE_ORDER;
    if !full {
      WithLeafOk(t, g, m, k, v);
      WithLeafSized(t, g, k, v, full);
      WithLeafPath(t, g, k, v);
      t', diskWrites, bytesWritten := SplitUp(t', path, g, Write(m, k, v));
    }
  }

  method WriteThrough(s: State, k: Key, v: Option<Val>) returns (s': State)
    requires Inv(s)
    ensures s' == ApplyWrite(s, k, v)
  {
    ghost var g :| Sound(s.tree, g, Told(s.wal), None, s.diskFull);
    var tree, diskWrites, bytesWritten, overflowed := Grow(s.tree, k, v, s.diskFull, g, Told(s.wal));
    s' := s.(tree := tree, wal := s.wal + [RedoRec(s.walAckSeq + 1, k, v)], walAckSeq := s.walAckSeq + 1,
             diskWrites := s.diskWrites + 1 + diskWrites,
             bytesWritten := s.bytesWritten + 2 * BYTES_PER_ENTRY + bytesWritten,
             userBytes := s.userBytes + BYTES_PER_ENTRY);
    if overflowed && !s.diskFull { s' := s'.(phase := Idle); }
  }

  method RebuildFromWal(s: State) returns (s': State)
    ensures s' == Rebuilt(s)
  {
    var rebuilt := Init();
    InitInv();
    for i := 0 to |s.wal|
      invariant rebuilt == Replay(s.wal[..i]) && Inv(rebuilt)
    {
      assert s.wal[..i + 1][..i] == s.wal[..i];
      WriteInv(rebuilt, s.wal[i].key, s.wal[i].val);
      rebuilt := WriteThrough(rebuilt, s.wal[i].key, s.wal[i].val);
    }
    assert s.wal[..|s.wal|] == s.wal;
    s' := rebuilt.(diskReads := s.diskReads, diskWrites := s.diskWrites, bytesWritten := s.bytesWritten,
                   userBytes := s.userBytes, wal := s.wal, walAckSeq := s.walAckSeq, phase := Idle);
  }

  method BtreeReduce(s: State, e: Event) returns (s': State)
    requires Inv(s)
    ensures s' == Reduce(s, e) && Inv(s')
  {
    StepInv(s, e);
    match e {
      case Put(k, v) => { s' := WriteThrough(s, k, Some(v)); }
      case Delete(k) => { s' := WriteThrough(s, k, None); }
      case Get(k) => {
        ghost var g :| Sound(s.tree, g, Told(s.wal), None, s.diskFull);
        var value;
        s', value := BtreeGet(s, k, g);
      }
      case Fails(CrashMidWrite) => { s' := RebuildFromWal(s.(phase := Recovering)); }
      case Fails(Recover) => { s' := RebuildFromWal(s.(diskFull := false)); }
      case Fails(DiskFull) => { s' := s.(diskFull := true); }
      case Fails(TornWrite) => { s' := s; }
      case Nothing => { s' := s; }
    }
  }
}
