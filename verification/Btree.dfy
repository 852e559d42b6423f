/** The B-tree engine over whole histories of writes, reads and faults. */
module Btree {
  import opened StorageShared
  import opened BtreePages
  import opened BtreeShape
  import opened BtreeWrite
  import opened BtreeSplit
  import opened BtreeGrow

  ghost predicate Inv(s: State) {
    && (exists g :: Sound(s.tree, g, Told(s.wal), None, s.diskFull))
    && s.walAckSeq == |s.wal| && Excess(s.tree) < |s.wal|
  }

  lemma InitInv()
    ensures Inv(Init())
  {
    var g := map[0 := Info(1, None, None, 0)];
    assert PageOk(Init().tree.pages, g, 0);
    assert Weight(Init().tree.pages, 1) == 0;
    assert Told([]) == map[];
    assert Filled(Init().tree.pages, g, 0, Told([]));
    assert Sound(Init().tree, g, Told(Init().wal), None, Init().diskFull);
  }

  lemma ToldSnoc(wal: seq<RedoRec>, r: RedoRec)
    ensures Told(wal + [r]) == Write(Told(wal), r.key, r.val)
  {
    assert (wal + [r])[..|wal|] == wal;
  }

  lemma WriteInv(s: State, k: Key, v: Option<Val>)
    requires Inv(s)
    ensures Inv(ApplyWrite(s, k, v))
  {
    var g :| Sound(s.tree, g, Told(s.wal), None, s.diskFull);
    var g' := InsertSound(s.tree, g, Told(s.wal), k, v, s.diskFull);
    ToldSnoc(s.wal, RedoRec(s.walAckSeq + 1, k, v));
  }

  lemma {:induction false} ReplayInv(wal: seq<RedoRec>)
    ensures Inv(Replay(wal)) && Told(Replay(wal).wal) == Told(wal) && |Replay(wal).wal| == |wal| && !Replay(wal).diskFull
  {
    if wal == [] {
      InitInv();
    } else {
      var front, r := wal[..|wal| - 1], wal[|wal| - 1];
      ReplayInv(front);
      WriteInv(Replay(front), r.key, r.val);
      ToldSnoc(Replay(front).wal, RedoRec(Replay(front).walAckSeq + 1, r.key, r.val));
    }
  }

  lemma RebuiltInv(s: State)
    requires Inv(s)
    ensures Inv(Rebuilt(s))
  {
    ReplayInv(s.wal);
    var g :| Sound(Replay(s.wal).tree, g, Told(s.wal), None, false);
    assert Sound(Rebuilt(s).tree, g, Told(s.wal), None, false);
  }

  lemma FullInv(s: State)
    requires Inv(s)
    ensures Inv(s.(diskFull := true))
  {
    var g :| Sound(s.tree, g, Told(s.wal), None, s.diskFull);
    forall id | id in s.tree.pages ensures Sized(s.tree.pages[id], id == s.tree.rootId, false, true) {
      assert Sized(s.tree.pages[id], id == s.tree.rootId, false, s.diskFull);
    }
    assert Sound(s.tree, g, Told(s.wal), None, true);
  }

  lemma StepInv(s: State, e: Event)
    requires Inv(s)
    ensures Inv(Reduce(s, e))
  {
    match e {
      case Put(k, v) => { WriteInv(s, k, Some(v)); }
      case Delete(k) => { WriteInv(s, k, None); }
      case Get(k) => { SameInv(s, AfterGet(s, k)); }
      case Nothing => {}
      case Fails(f) => {
        match f {
          case CrashMidWrite => { RebuiltInv(s); SameInv(Rebuilt(s), ApplyFault(s, f)); }
          case Recover => { RebuiltInv(s); SameInv(Rebuilt(s), ApplyFault(s, f)); }
          case DiskFull => { FullInv(s); }
          case TornWrite => {}
        }
      }
    }
  }

  lemma SameInv(s: State, s': State)
    requires Inv(s) && s'.tree == s.tree && s'.wal == s.wal && s'.diskFull == s.diskFull && s'.walAckSeq == s.walAckSeq
    ensures Inv(s')
  {
    var g :| Sound(s.tree, g, Told(s.wal), None, s.diskFull);
    assert Sound(s'.tree, g, Told(s'.wal), None, s'.diskFull);
  }

  /** In every reachable state the pages form a B-tree for what the log says. */
  lemma {:induction false} Invariant(es: seq<Event>)
    ensures Inv(After(es))
  {
    if es == [] {
      InitInv();
    } else {
      Invariant(es[..|es| - 1]);
      StepInv(After(es[..|es| - 1]), es[|es| - 1]);
    }
  }

  lemma {:induction false} LogIsAsked(es: seq<Event>)
    ensures Told(After(es).wal) == Asked(es)
  {
    if es != [] {
      var s, e := After(es[..|es| - 1]), es[|es| - 1];
      LogIsAsked(es[..|es| - 1]);
      match e {
        case Put(k, v) => { ToldSnoc(s.wal, RedoRec(s.walAckSeq + 1, k, Some(v))); }
        case Delete(k) => { ToldSnoc(s.wal, RedoRec(s.walAckSeq + 1, k, None)); }
        case _ => {}
      }
    }
  }

  /** Every read returns the last write of its key, and costs exactly the height of the tree. */
  lemma ReadsExact(es: seq<Event>, k: Key)
    ensures Answer(After(es).tree, k) == Lookup(Asked(es), k)
    ensures After(es + [Get(k)]).lastReadCost == After(es).tree.height
  {
    Invariant(es);
    LogIsAsked(es);
    var s := After(es);
    var g :| Sound(s.tree, g, Told(s.wal), None, s.diskFull);
    AnswerIs(s.tree, g, Told(s.wal), k);
    PathClimbs(s.tree, g, k);
    assert (es + [Get(k)])[..|es|] == es;
  }

  /** Balance and page sizes in every reachable state: any descent meets one page of every level and ends at
      a leaf; index pages have a child more than keys; and unless the disk is full no page exceeds the order. */
  lemma Balanced(es: seq<Event>, k: Key, id: Id)
    requires id in After(es).tree.pages
    ensures var t := After(es).tree; var p := t.pages[id];
      && |PathTo(t, k)| == t.height && LeafOf(t, k) in t.pages && t.pages[LeafOf(t, k)].leaf
      && (!p.leaf ==> |p.children| == |p.keys| + 1 && |p.keys| <= BTREE_ORDER)
      && (!After(es).diskFull ==> |p.keys| <= BTREE_ORDER)
      && (forall i, j :: 0 <= i < j < |p.keys| ==> p.keys[i] < p.keys[j])
  {
    Invariant(es);
    var s := After(es);
    var g :| Sound(s.tree, g, Told(s.wal), None, s.diskFull);
    PathClimbs(s.tree, g, k);
    assert PageOk(s.tree.pages, g, id);
    assert Sized(s.tree.pages[id], id == s.tree.rootId, false, s.diskFull);
  }

  // ---------- separators ----------

  /** id is on the way down from top, which is some levels above it. */
  ghost predicate Under(pages: map<Id, Page>, top: Id, id: Id, levels: nat)
    decreases levels
  {
    if levels == 0 then top == id
    else top in pages && exists c {:trigger c in pages[top].children} :: c in pages[top].children && Under(pages, c, id, levels - 1)
  }

  lemma {:induction false} UnderWithin(t: Tree, g: Shape, top: Id, id: Id, levels: nat)
    requires WellFormed(t, g) && top < t.nextPage && Under(t.pages, top, id, levels)
    ensures id < t.nextPage && forall k :: Within(k, g[id]) ==> Within(k, g[top])
    decreases levels
  {
    if levels > 0 {
      var c :| c in t.pages[top].children && Under(t.pages, c, id, levels - 1);
      ChildRank(t, g, top, c);
      UnderWithin(t, g, c, id, levels - 1);
      NotRoot(t, g, top, c);
      ParentOwns(t, g, c);
    }
  }

  lemma NotRoot(t: Tree, g: Shape, top: Id, c: Id)
    requires WellFormed(t, g) && top < t.nextPage && c in t.pages[top].children
    ensures c != t.rootId
  {
    ChildRank(t, g, top, c);
    assert top in g && g[top].rank <= t.height;
  }

  lemma {:induction false} UnderSnoc(t: Tree, top: Id, mid: Id, id: Id, levels: nat)
    requires Under(t.pages, top, mid, levels) && mid in t.pages && id in t.pages[mid].children
    ensures Under(t.pages, top, id, levels + 1)
    decreases levels
  {
    if levels == 0 {
      assert Under(t.pages, id, id, 0);
    } else {
      var c :| c in t.pages[top].children && Under(t.pages, c, mid, levels - 1);
      UnderSnoc(t, c, mid, id, levels - 1);
    }
  }

  lemma {:induction false} UnderRoot(t: Tree, g: Shape, id: Id)
    requires WellFormed(t, g) && id < t.nextPage
    ensures g[id].rank <= t.height && Under(t.pages, t.rootId, id, t.height - g[id].rank)
    decreases t.height - g[id].rank
  {
    assert id in g && g[id].rank <= t.height;
    if id == t.rootId {
    } else {
      ParentOwns(t, g, id);
      assert g[g[id].parent].rank <= t.height;
      UnderRoot(t, g, g[id].parent);
      UnderSnoc(t, t.rootId, g[id].parent, id, t.height - g[g[id].parent].rank);
    }
  }

  lemma {:induction false} UnderRanks(t: Tree, g: Shape, top: Id, id: Id, levels: nat)
    requires WellFormed(t, g) && top < t.nextPage && Under(t.pages, top, id, levels)
    ensures id < t.nextPage && g[id].rank + levels == g[top].rank
    decreases levels
  {
    if levels > 0 {
      var c :| c in t.pages[top].children && Under(t.pages, c, id, levels - 1);
      ChildRank(t, g, top, c);
      UnderRanks(t, g, c, id, levels - 1);
    }
  }

  /** Every page hangs under the root, and every leaf exactly height - 1 levels below it, however it is reached. */
  lemma LeavesLevel(es: seq<Event>, id: Id, levels: nat)
    requires id in After(es).tree.pages
    ensures var t := After(es).tree;
      && (exists n: nat :: Under(t.pages, t.rootId, id, n))
      && (t.pages[id].leaf && Under(t.pages, t.rootId, id, levels) ==> levels == t.height - 1)
  {
    Invariant(es);
    var s := After(es);
    var g :| Sound(s.tree, g, Told(s.wal), None, s.diskFull);
    UnderRoot(s.tree, g, id);
    assert PageOk(s.tree.pages, g, id);
    if Under(s.tree.pages, s.tree.rootId, id, levels) { UnderRanks(s.tree, g, s.tree.rootId, id, levels); }
  }

  /** Every key anywhere under the i-th child of an index page lies between the separators around it. */
  lemma SeparatorsBound(es: seq<Event>, id: Id, i: nat, below: Id, levels: nat, key: Key)
    requires var pages := After(es).tree.pages;
      && id in pages && !pages[id].leaf && i < |pages[id].children|
      && Under(pages, pages[id].children[i], below, levels) && below in pages && key in pages[below].keys
    ensures var p := After(es).tree.pages[id];
      (0 < i <= |p.keys| ==> p.keys[i - 1] <= key) && (i < |p.keys| ==> key < p.keys[i])
  {
    Invariant(es);
    var s := After(es);
    var g :| Sound(s.tree, g, Told(s.wal), None, s.diskFull);
    var p := s.tree.pages[id];
    assert PageOk(s.tree.pages, g, id);
    ChildRank(s.tree, g, id, p.children[i]);
    UnderWithin(s.tree, g, p.children[i], below, levels);
    assert g[p.children[i]] == Part(p.keys, g[id], i, id);
    assert PageOk(s.tree.pages, g, below);
    assert Within(key, g[below]);
  }

  // ---------- rebuilding ----------

  ghost predicate Untroubled(es: seq<Event>) {
    Fails(DiskFull) !in es
  }

  lemma ReplaySnoc(wal: seq<RedoRec>, r: RedoRec)
    ensures Replay(wal + [r]) == ApplyWrite(Replay(wal), r.key, r.val)
  {
    assert (wal + [r])[..|wal|] == wal;
  }

  ghost predicate Replays(s: State) {
    s.tree == Replay(s.wal).tree && !s.diskFull
  }

  lemma WriteReplays(s: State, k: Key, v: Option<Val>)
    requires Replays(s)
    ensures Replays(ApplyWrite(s, k, v))
  {
    ReplayInv(s.wal);
    ReplaySnoc(s.wal, RedoRec(s.walAckSeq + 1, k, v));
  }

  lemma FaultReplays(s: State, f: Fault)
    requires Replays(s) && f != DiskFull
    ensures Replays(ApplyFault(s, f)) && ApplyFault(s, f).tree == s.tree && ApplyFault(s, f).wal == s.wal
    ensures ApplyFault(s, f).bytesWritten == s.bytesWritten && ApplyFault(s, f).userBytes == s.userBytes
  {
    ReplayInv(s.wal);
  }

  lemma AfterSnoc(es: seq<Event>, e: Event)
    ensures After(es + [e]) == Reduce(After(es), e)
  {
    assert (es + [e])[..|es|] == es;
  }

  /** While the disk has never been full, the tree is the replay of its log. */
  lemma {:induction false} TreeIsReplay(es: seq<Event>)
    requires Untroubled(es)
    ensures Replays(After(es))
  {
    if es != [] {
      var s, e := After(es[..|es| - 1]), es[|es| - 1];
      TreeIsReplay(es[..|es| - 1]);
      match e {
        case Put(k, v) => { WriteReplays(s, k, Some(v)); }
        case Delete(k) => { WriteReplays(s, k, None); }
        case Fails(f) => { FaultReplays(s, f); }
        case Get(k) => {}
        case Nothing => {}
      }
    }
  }

  /** A crash or a recovery rebuilds exactly the tree that was there: every page, id and level of it. */
  lemma RebuildIsSame(es: seq<Event>, f: Fault)
    requires Untroubled(es) && f != DiskFull
    ensures After(es + [Fails(f)]).tree == After(es).tree
  {
    TreeIsReplay(es);
    FaultReplays(After(es), f);
    AfterSnoc(es, Fails(f));
  }

  // ---------- write amplification ----------

  lemma {:induction false} CountPages(pages: map<Id, Page>, n: nat)
    requires forall id: Id :: id in pages <==> id < n
    ensures |pages| == n
  {
    if n == 0 {
      assert pages.Keys == {};
    } else {
      var rest := pages - {n - 1};
      CountPages(rest, n - 1);
      assert pages.Keys == rest.Keys + {n - 1};
    }
  }

  lemma {:induction false} Heavy(pages: map<Id, Page>, n: nat)
    requires forall id: Id :: id < n ==> id in pages && PageWeight(pages[id]) >= 2
    ensures Weight(pages, n) >= 2 * n
  {
    if n > 0 { Heavy(pages, n - 1); }
  }

  lemma OnePage(t: Tree, g: Shape)
    requires WellFormed(t, g) && t.height == 1
    ensures t.nextPage == 1
  {
    assert PageOk(t.pages, g, 0);
    RootOnTop(t, g, 0);
    if t.nextPage > 1 {
      assert PageOk(t.pages, g, 1);
      RootOnTop(t, g, 1);
    }
  }

  lemma ManyPages(t: Tree, g: Shape, full: bool)
    requires WellFormed(t, g) && AllSized(t, None, full) && t.height > 1
    ensures Excess(t) >= t.nextPage
  {
    forall id: Id | id < t.nextPage ensures id in t.pages && PageWeight(t.pages[id]) >= 2 {
      assert PageOk(t.pages, g, id);
      assert Sized(t.pages[id], id == t.rootId, false, full);
    }
    Heavy(t.pages, t.nextPage);
  }

  /** There are fewer pages than writes, or just the one page. */
  lemma FewPages(s: State)
    requires Inv(s)
    ensures |s.tree.pages| == s.tree.nextPage && s.tree.height >= 1
    ensures s.tree.nextPage == 1 || s.tree.nextPage < |s.wal|
  {
    var g :| Sound(s.tree, g, Told(s.wal), None, s.diskFull);
    CountPages(s.tree.pages, s.tree.nextPage);
    if s.tree.height == 1 { OnePage(s.tree, g); } else { ManyPages(s.tree, g, s.diskFull); }
  }

  ghost predicate Priced(s: State) {
    && s.userBytes == BYTES_PER_ENTRY * |s.wal|
    && s.bytesWritten == BYTES_PER_ENTRY * (2 * |s.wal| + 2 * s.tree.nextPage - s.tree.height - 1)
  }

  lemma WritePriced(s: State, k: Key, v: Option<Val>)
    requires Inv(s) && Priced(s)
    ensures Priced(ApplyWrite(s, k, v))
  {
    var g :| Sound(s.tree, g, Told(s.wal), None, s.diskFull);
    var g' := InsertSound(s.tree, g, Told(s.wal), k, v, s.diskFull);
  }

  lemma {:induction false} AlwaysPriced(es: seq<Event>)
    requires Untroubled(es)
    ensures Priced(After(es))
  {
    if es != [] {
      var s, e := After(es[..|es| - 1]), es[|es| - 1];
      AlwaysPriced(es[..|es| - 1]);
      Invariant(es[..|es| - 1]);
      match e {
        case Put(k, v) => { WritePriced(s, k, Some(v)); }
        case Delete(k) => { WritePriced(s, k, None); }
        case Fails(f) => {
          TreeIsReplay(es[..|es| - 1]);
          FaultReplays(s, f);
        }
        case Get(k) => {}
        case Nothing => {}
      }
    }
  }

  /** The exact cost of a history without a full disk, and the bound it implies. */
  lemma WriteAmplification(es: seq<Event>)
    requires Untroubled(es)
    ensures var s := After(es);
      && s.userBytes == 16 * |s.wal|
      && s.bytesWritten == 16 * (2 * |s.wal| + 2 * |s.tree.pages| - s.tree.height - 1)
      && (|s.wal| > 0 ==> s.bytesWritten < 4 * s.userBytes)
  {
    AlwaysPriced(es);
    Invariant(es);
    FewPages(After(es));
  }

  // ---------- a full disk ----------

  predicate SamePages(t: Tree, t': Tree) {
    t'.pages.Keys == t.pages.Keys && t'.rootId == t.rootId && t'.height == t.height && t'.nextPage == t.nextPage
  }

  lemma FullWrites(s: State, k: Key, v: Option<Val>)
    requires s.diskFull
    ensures ApplyWrite(s, k, v).diskFull && SamePages(s.tree, ApplyWrite(s, k, v).tree)
  {
    assert WithLeaf(s.tree, k, v).pages.Keys == s.tree.pages.Keys;
  }

  /** Neither a crash nor a recovery, which rebuild the tree as if the disk had room. */
  predicate NoRebuild(es: seq<Event>) {
    forall i :: 0 <= i < |es| ==> es[i] != Fails(CrashMidWrite) && es[i] != Fails(Recover)
  }

  /** With the disk full no page is made and none split, whatever is written, until the tree is rebuilt. */
  lemma {:induction false} FullSplitsNothing(es: seq<Event>, more: seq<Event>)
    requires After(es).diskFull && NoRebuild(more)
    ensures After(es + more).diskFull && SamePages(After(es).tree, After(es + more).tree)
  {
    if more == [] {
      assert es + more == es;
    } else {
      var front, e := more[..|more| - 1], more[|more| - 1];
      assert (es + more)[..|es + more| - 1] == es + front;
      FullSplitsNothing(es, front);
      FullStep(After(es + front), e);
    }
  }

  lemma FullStep(s: State, e: Event)
    requires s.diskFull && e != Fails(CrashMidWrite) && e != Fails(Recover)
    ensures Reduce(s, e).diskFull && SamePages(s.tree, Reduce(s, e).tree)
  {
    match e {
      case Put(k, v) => { FullWrites(s, k, Some(v)); }
      case Delete(k) => { FullWrites(s, k, None); }
      case _ => {}
    }
  }
}
