/** The B-tree engine on its page table: descent, leaf insertion, and splits that climb the recorded path. */
module BtreePages {
  import opened StorageShared

  type Id = nat

  /** A leaf pairs keys with values; an index page has one more child than keys. */
  datatype Page = Page(leaf: bool, keys: seq<Key>, vals: seq<Option<Val>>, children: seq<Id>)

  datatype Tree = Tree(pages: map<Id, Page>, rootId: Id, height: nat, nextPage: Id)

  datatype RedoRec = RedoRec(tag: nat, key: Key, val: Option<Val>)
  datatype Phase = Idle | Splitting | Recovering

  datatype State = State(
    tree: Tree, wal: seq<RedoRec>, walAckSeq: nat, phase: Phase,
    diskReads: nat, diskWrites: nat, bytesWritten: nat, userBytes: nat, lastReadCost: nat, diskFull: bool)

  datatype Fault = CrashMidWrite | TornWrite | DiskFull | Recover
  datatype Event = Put(key: Key, val: Val) | Delete(key: Key) | Get(key: Key) | Fails(fault: Fault) | Nothing

  function Init(): State {
    State(Tree(map[0 := Page(true, [], [], [])], 0, 1, 1), [], 0, Idle, 0, 0, 0, 0, 0, false)
  }

  // ---------- lists ----------

  function IndexOf<T(==)>(s: seq<T>, x: T): (i: nat)
    ensures i <= |s| && (i < |s| <==> x in s)
    ensures i < |s| ==> s[i] == x
  {
    if s == [] then 0 else if s[0] == x then 0 else 1 + IndexOf(s[1..], x)
  }

  function Splice<T>(s: seq<T>, i: nat, x: T): seq<T>
    requires i <= |s|
  {
    s[..i] + [x] + s[i..]
  }

  /** One past the last key that k reaches. */
  function Slot(keys: seq<Key>, k: Key): (i: nat)
    ensures i <= |keys|
  {
    if keys == [] then 0 else if k >= keys[|keys| - 1] then |keys| else Slot(keys[..|keys| - 1], k)
  }

  /** How many leading keys are below k. */
  function Below(keys: seq<Key>, k: Key): (i: nat)
    ensures i <= |keys| && (forall j :: 0 <= j < i ==> keys[j] < k) && (i < |keys| ==> keys[i] >= k)
  {
    if keys == [] || keys[0] >= k then 0 else 1 + Below(keys[1..], k)
  }

  // ---------- descent and lookup ----------

  function Child(p: Page, k: Key): Id {
    if Slot(p.keys, k) < |p.children| then p.children[Slot(p.keys, k)] else 0
  }

  /** The pages from id down to a leaf, as far as the fuel goes. */
  function Descend(pages: map<Id, Page>, id: Id, k: Key, fuel: nat): (path: seq<Id>)
    ensures path != [] && path[0] == id
    decreases fuel
  {
    if fuel == 0 || id !in pages || pages[id].leaf then [id]
    else [id] + Descend(pages, Child(pages[id], k), k, fuel - 1)
  }

  function PathTo(t: Tree, k: Key): seq<Id> {
    Descend(t.pages, t.rootId, k, t.height)
  }

  function Look(p: Page, k: Key): Option<Val> {
    if IndexOf(p.keys, k) < |p.vals| && k in p.keys then p.vals[IndexOf(p.keys, k)] else None
  }

  function LeafOf(t: Tree, k: Key): Id {
    PathTo(t, k)[|PathTo(t, k)| - 1]
  }

  /** The value a point read returns. */
  function Answer(t: Tree, k: Key): Option<Val> {
    if LeafOf(t, k) in t.pages then Look(t.pages[LeafOf(t, k)], k) else None
  }

  function AfterGet(s: State, k: Key): State {
    s.(lastReadCost := |PathTo(s.tree, k)|, diskReads := s.diskReads + |PathTo(s.tree, k)|)
  }

  // ---------- insertion and splits ----------

  function LeafInsert(p: Page, k: Key, v: Option<Val>): Page
    requires |p.vals| == |p.keys|
  {
    var i := IndexOf(p.keys, k);
    if i < |p.keys| then p.(vals := p.vals[i := v])
    else p.(keys := Splice(p.keys, Below(p.keys, k), k), vals := Splice(p.vals, Below(p.keys, k), v))
  }

  predicate Splittable(p: Page) {
    |p.keys| > BTREE_ORDER && if p.leaf then |p.vals| == |p.keys| else |p.children| == |p.keys| + 1
  }

  function Mid(p: Page): nat { |p.keys| / 2 }

  function Separator(p: Page): Key
    requires Splittable(p)
  {
    p.keys[Mid(p)]
  }

  function LeftHalf(p: Page): Page
    requires Splittable(p)
  {
    if p.leaf then p.(keys := p.keys[..Mid(p)], vals := p.vals[..Mid(p)])
    else p.(keys := p.keys[..Mid(p)], children := p.children[..Mid(p) + 1])
  }

  /** A leaf's separator stays in its right half; an index page's moves up. */
  function RightHalf(p: Page): Page
    requires Splittable(p)
  {
    if p.leaf then Page(true, p.keys[Mid(p)..], p.vals[Mid(p)..], [])
    else Page(false, p.keys[Mid(p) + 1..], [], p.children[Mid(p) + 1..])
  }

  function Parted(t: Tree, cur: Id): map<Id, Page>
    requires cur in t.pages && Splittable(t.pages[cur])
  {
    t.pages[cur := LeftHalf(t.pages[cur])][t.nextPage := RightHalf(t.pages[cur])]
  }

  function Adopt(p: Page, cur: Id, sep: Key, right: Id): Page
  {
    var i := IndexOf(p.children, cur);
    if i < |p.children| && i <= |p.keys|
    then p.(keys := Splice(p.keys, i, sep), children := Splice(p.children, i + 1, right)) else p
  }

  function SplitRoot(t: Tree): Tree
    requires t.rootId in t.pages && Splittable(t.pages[t.rootId])
  {
    var page := Page(false, [Separator(t.pages[t.rootId])], [], [t.rootId, t.nextPage]);
    Tree(Parted(t, t.rootId)[t.nextPage + 1 := page], t.nextPage + 1, t.height + 1, t.nextPage + 2)
  }

  function SplitInner(t: Tree, cur: Id, parent: Id): Tree
    requires cur in t.pages && Splittable(t.pages[cur]) && parent in t.pages
  {
    t.(pages := Parted(t, cur)[parent := Adopt(Parted(t, cur)[parent], cur, Separator(t.pages[cur]), t.nextPage)],
       nextPage := t.nextPage + 1)
  }

  datatype Grown = Grown(tree: Tree, pageWrites: nat)

  /** Splits climbing from path[depth] until a page has room, or the root has split. On a well-formed tree
      every page on the path can be split and has its predecessor as parent. */
  function SplitFrom(t: Tree, path: seq<Id>, depth: nat): Grown
    requires depth < |path|
    decreases depth
  {
    var cur := path[depth];
    if cur !in t.pages || |t.pages[cur].keys| <= BTREE_ORDER || !Splittable(t.pages[cur]) then Grown(t, 0)
    else if cur == t.rootId then Grown(SplitRoot(t), 3)
    else if depth == 0 || path[depth - 1] !in t.pages then Grown(t, 0)
    else
      var rest := SplitFrom(SplitInner(t, cur, path[depth - 1]), path, depth - 1);
      rest.(pageWrites := rest.pageWrites + 2)
  }

  function WithLeaf(t: Tree, k: Key, v: Option<Val>): Tree {
    if LeafOf(t, k) in t.pages && |t.pages[LeafOf(t, k)].vals| == |t.pages[LeafOf(t, k)].keys|
    then t.(pages := t.pages[LeafOf(t, k) := LeafInsert(t.pages[LeafOf(t, k)], k, v)]) else t
  }

  /** The tree after a write, and how many pages its splits wrote. */
  function InsertKey(t: Tree, k: Key, v: Option<Val>, full: bool): Grown {
    if full then Grown(WithLeaf(t, k, v), 0)
    else SplitFrom(WithLeaf(t, k, v), PathTo(t, k), |PathTo(t, k)| - 1)
  }

  predicate Overflows(t: Tree, k: Key, v: Option<Val>) {
    var t' := WithLeaf(t, k, v);
    LeafOf(t, k) in t'.pages && |t'.pages[LeafOf(t, k)].keys| > BTREE_ORDER
  }

  function ApplyWrite(s: State, k: Key, v: Option<Val>): State {
    var g := InsertKey(s.tree, k, v, s.diskFull);
    s.(tree := g.tree, wal := s.wal + [RedoRec(s.walAckSeq + 1, k, v)], walAckSeq := s.walAckSeq + 1,
       diskWrites := s.diskWrites + 1 + g.pageWrites,
       bytesWritten := s.bytesWritten + 2 * BYTES_PER_ENTRY + g.pageWrites * BYTES_PER_ENTRY,
       userBytes := s.userBytes + BYTES_PER_ENTRY,
       phase := if !s.diskFull && Overflows(s.tree, k, v) then Idle else s.phase)
  }

  /** The whole log applied to a fresh tree. */
  function Replay(wal: seq<RedoRec>): State {
    if wal == [] then Init() else ApplyWrite(Replay(wal[..|wal| - 1]), wal[|wal| - 1].key, wal[|wal| - 1].val)
  }

  function Rebuilt(s: State): State {
    Replay(s.wal).(diskReads := s.diskReads, diskWrites := s.diskWrites, bytesWritten := s.bytesWritten,
                   userBytes := s.userBytes, wal := s.wal, walAckSeq := s.walAckSeq, phase := Idle)
  }

  function ApplyFault(s: State, f: Fault): State {
    match f
    case CrashMidWrite => Rebuilt(s.(phase := Recovering))
    case DiskFull => s.(diskFull := true)
    case Recover => Rebuilt(s.(diskFull := false))
    case TornWrite => s
  }

  function Reduce(s: State, e: Event): State {
    match e
    case Fails(f) => ApplyFault(s, f)
    case Get(k) => AfterGet(s, k)
    case Put(k, v) => ApplyWrite(s, k, Some(v))
    case Delete(k) => ApplyWrite(s, k, None)
    case Nothing => s
  }

  function After(es: seq<Event>): State {
    if es == [] then Init() else Reduce(After(es[..|es| - 1]), es[|es| - 1])
  }

  function Ask(m: Table, e: Event): Table {
    match e
    case Put(k, v) => Write(m, k, Some(v))
    case Delete(k) => Write(m, k, None)
    case _ => m
  }

  /** What the user has asked for. */
  function Asked(es: seq<Event>): Table {
    if es == [] then map[] else Ask(Asked(es[..|es| - 1]), es[|es| - 1])
  }

  /** What the log says. */
  function Told(wal: seq<RedoRec>): Table {
    if wal == [] then map[] else Write(Told(wal[..|wal| - 1]), wal[|wal| - 1].key, wal[|wal| - 1].val)
  }
}
