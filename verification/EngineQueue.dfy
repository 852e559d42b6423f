/** The event queue: a binary min-heap on (time, tag), swapped in place. */
module EngineQueue {
  datatype Option<+T> = None | Some(value: T)

  type NodeId = string

  datatype Kind = KInit | KMessage | KTimer | KExternal | KControl

  /** tag is the insertion counter that breaks ties between equal times. */
  datatype Event<+P> = Event(
    time: int, tag: nat, target: NodeId, kind: Kind, from: Option<NodeId>, sentAt: Option<int>, payload: P)

  predicate Before<P>(a: Event<P>, b: Event<P>) {
    if a.time != b.time then a.time < b.time else a.tag < b.tag
  }

  /** The earlier of the two, and of equal times the one inserted first. */
  predicate NoLater<P>(a: Event<P>, b: Event<P>) {
    a.time < b.time || (a.time == b.time && a.tag <= b.tag)
  }

  function Parent(i: nat): nat
    requires i > 0
  {
    (i - 1) / 2
  }

  // ---------- the operations on the heap array ----------

  function Swap<T>(h: seq<T>, i: nat, j: nat): (r: seq<T>)
    requires i < |h| && j < |h|
    ensures |r| == |h|
  {
    h[i := h[j]][j := h[i]]
  }

  function SiftUp<P>(h: seq<Event<P>>, i: nat): (r: seq<Event<P>>)
    requires i < |h|
    ensures |r| == |h|
    decreases i
  {
    if i > 0 && Before(h[i], h[Parent(i)]) then SiftUp(Swap(h, i, Parent(i)), Parent(i)) else h
  }

  /** The smallest of i and its children. */
  function Smallest<P>(h: seq<Event<P>>, i: nat): (m: nat)
    requires i < |h|
    ensures i <= m < |h| && (m == i || m == 2 * i + 1 || m == 2 * i + 2)
  {
    var l := 2 * i + 1;
    var m := if l < |h| && Before(h[l], h[i]) then l else i;
    if l + 1 < |h| && Before(h[l + 1], h[m]) then l + 1 else m
  }

  function SiftDown<P>(h: seq<Event<P>>, i: nat): (r: seq<Event<P>>)
    requires i < |h|
    ensures |r| == |h|
    decreases |h| - i
  {
    if Smallest(h, i) == i then h else SiftDown(Swap(h, i, Smallest(h, i)), Smallest(h, i))
  }

  function PushTo<P>(h: seq<Event<P>>, e: Event<P>): seq<Event<P>> {
    SiftUp(h + [e], |h|)
  }

  /** What is left after the top is removed. */
  function PopFrom<P>(h: seq<Event<P>>): seq<Event<P>>
    requires h != []
  {
    if |h| == 1 then [] else SiftDown(h[..|h| - 1][0 := h[|h| - 1]], 0)
  }

  // ---------- heap order ----------

  ghost predicate InOrder<P>(h: seq<Event<P>>, j: nat)
    requires 0 < j < |h|
  {
    !Before(h[j], h[Parent(j)])
  }

  ghost predicate HeapOk<P>(h: seq<Event<P>>) {
    forall j {:trigger InOrder(h, j)} :: 0 < j < |h| ==> InOrder(h, j)
  }

  /** Heap order but for i, which may be too early for its parent. */
  ghost predicate UpOk<P>(h: seq<Event<P>>, i: nat) {
    && i < |h|
    && (forall j {:trigger InOrder(h, j)} :: 0 < j < |h| && j != i ==> InOrder(h, j))
    && (forall j {:trigger h[j]} :: 0 < j < |h| && Parent(j) == i && i > 0 ==> !Before(h[j], h[Parent(i)]))
  }

  /** Heap order but for i, which may be too late for its children. */
  ghost predicate DownOk<P>(h: seq<Event<P>>, i: nat) {
    && i < |h|
    && (forall j {:trigger InOrder(h, j)} :: 0 < j < |h| && Parent(j) != i ==> InOrder(h, j))
    && (forall j {:trigger h[j]} :: 0 < j < |h| && Parent(j) == i && i > 0 ==> !Before(h[j], h[Parent(i)]))
  }

  lemma SwapMultiset<T>(h: seq<T>, i: nat, j: nat)
    requires i < |h| && j < |h|
    ensures multiset(Swap(h, i, j)) == multiset(h)
  {
  }

  lemma UpStep<P>(h: seq<Event<P>>, i: nat)
    requires UpOk(h, i) && i > 0 && Before(h[i], h[Parent(i)])
    ensures UpOk(Swap(h, i, Parent(i)), Parent(i))
  {
    var p := Parent(i);
    var s := Swap(h, i, p);
    forall j | 0 < j < |s| && j != p ensures InOrder(s, j) {
      if j != i { assert InOrder(h, j); }
      if Parent(j) == p && j != i { assert InOrder(h, j); }
    }
    forall j | 0 < j < |s| && Parent(j) == p && p > 0 ensures !Before(s[j], s[Parent(p)]) {
      assert InOrder(h, p);
      if j != i { assert InOrder(h, j); }
    }
  }

  lemma {:induction false} SiftUpOk<P>(h: seq<Event<P>>, i: nat)
    requires UpOk(h, i)
    ensures HeapOk(SiftUp(h, i)) && multiset(SiftUp(h, i)) == multiset(h)
    decreases i
  {
    if i > 0 && Before(h[i], h[Parent(i)]) {
      UpStep(h, i);
      SwapMultiset(h, i, Parent(i));
      SiftUpOk(Swap(h, i, Parent(i)), Parent(i));
    } else {
      assert i > 0 ==> InOrder(h, i);
    }
  }

  lemma SmallestIs<P>(h: seq<Event<P>>, i: nat)
    requires i < |h|
    ensures var m := Smallest(h, i);
      && !Before(h[i], h[m]) && (m != i ==> Before(h[m], h[i]))
      && forall j :: 0 < j < |h| && Parent(j) == i ==> !Before(h[j], h[m])
  {
    forall j | 0 < j < |h| && Parent(j) == i ensures !Before(h[j], h[Smallest(h, i)]) {
      assert j == 2 * i + 1 || j == 2 * i + 2;
    }
  }

  lemma DownStep<P>(h: seq<Event<P>>, i: nat)
    requires DownOk(h, i) && Smallest(h, i) != i
    ensures DownOk(Swap(h, i, Smallest(h, i)), Smallest(h, i))
  {
    var m := Smallest(h, i);
    var s := Swap(h, i, m);
    SmallestIs(h, i);
    assert Parent(m) == i;
    forall j | 0 < j < |s| && Parent(j) != m ensures InOrder(s, j) {
      if j == i {
        assert !Before(h[m], h[Parent(i)]);
      } else if Parent(j) != i {
        assert InOrder(h, j);
      }
    }
    forall j | 0 < j < |s| && Parent(j) == m && m > 0 ensures !Before(s[j], s[Parent(m)]) {
      assert InOrder(h, j);
    }
  }

  lemma {:induction false} SiftDownOk<P>(h: seq<Event<P>>, i: nat)
    requires DownOk(h, i)
    ensures HeapOk(SiftDown(h, i)) && multiset(SiftDown(h, i)) == multiset(h)
    decreases |h| - i
  {
    var m := Smallest(h, i);
    if m == i {
      SmallestIs(h, i);
      forall j | 0 < j < |h| ensures InOrder(h, j) { if Parent(j) != i { assert InOrder(h, j); } }
    } else {
      DownStep(h, i);
      SwapMultiset(h, i, m);
      SiftDownOk(Swap(h, i, m), m);
    }
  }

  lemma {:induction false} RootLeast<P>(h: seq<Event<P>>, j: nat)
    requires HeapOk(h) && j < |h|
    ensures !Before(h[j], h[0])
    decreases j
  {
    if j > 0 {
      RootLeast(h, Parent(j));
      assert InOrder(h, j);
    }
  }

  /** Pushing adds exactly the event and keeps the heap. */
  lemma PushOk<P>(h: seq<Event<P>>, e: Event<P>)
    requires HeapOk(h)
    ensures HeapOk(PushTo(h, e)) && multiset(PushTo(h, e)) == multiset(h) + multiset{e}
  {
    var g := h + [e];
    forall j | 0 < j < |g| && j != |h| ensures InOrder(g, j) { assert InOrder(h, j); }
    SiftUpOk(g, |h|);
  }

  /** The top has the least time, and of those with that time the least tag. */
  lemma TopLeast<P>(h: seq<Event<P>>)
    requires HeapOk(h) && h != []
    ensures forall e :: e in h ==> NoLater(h[0], e)
  {
    forall e | e in h ensures NoLater(h[0], e) {
      var j :| 0 <= j < |h| && h[j] == e;
      RootLeast(h, j);
    }
  }

  /** Popping removes exactly the top. */
  lemma PopOk<P>(h: seq<Event<P>>)
    requires HeapOk(h) && h != []
    ensures HeapOk(PopFrom(h)) && multiset(PopFrom(h)) == multiset(h) - multiset{h[0]}
    ensures forall e :: e in h ==> NoLater(h[0], e)
  {
    TopLeast(h);
    if |h| == 1 {
      assert h == [h[0]];
    } else {
      var front, last := h[..|h| - 1], h[|h| - 1];
      assert h == front + [last] && front == [front[0]] + front[1..];
      var g := front[0 := last];
      assert g == [last] + front[1..];
      forall j | 0 < j < |g| && Parent(j) != 0 ensures InOrder(g, j) { assert InOrder(h, j); }
      SiftDownOk(g, 0);
    }
  }

  ghost predicate DistinctTags<P>(h: seq<Event<P>>) {
    forall i, j :: 0 <= i < j < |h| ==> h[i].tag != h[j].tag
  }

  /** What is popped depends only on which events are queued, not on how the heap lies. */
  lemma PopDetermined<P>(g: seq<Event<P>>, h: seq<Event<P>>)
    requires HeapOk(g) && HeapOk(h) && DistinctTags(h) && multiset(g) == multiset(h) && h != []
    ensures g != [] && g[0] == h[0] && multiset(PopFrom(g)) == multiset(PopFrom(h))
  {
    assert |g| == |multiset(g)| == |h|;
    PopOk(g);
    PopOk(h);
    assert g[0] in multiset(g) && h[0] in multiset(h);
    assert g[0] in h && h[0] in g;
    var j :| 0 <= j < |h| && h[j] == g[0];
  }

  // ---------- the class ----------

  class EventQueue<P> {
    var heap: seq<Event<P>>

    constructor ()
      ensures heap == []
    {
      heap := [];
    }

    method Push(e: Event<P>)
      modifies this
      ensures heap == PushTo(old(heap), e)
      ensures HeapOk(old(heap)) ==> HeapOk(heap) && multiset(heap) == multiset(old(heap)) + multiset{e}
    {
      if HeapOk(heap) { PushOk(heap, e); }
      heap := heap + [e];
      var i := |heap| - 1;
      while i > 0
        invariant 0 <= i < |heap| && SiftUp(heap, i) == PushTo(old(heap), e)
        decreases i
      {
        var p := (i - 1) / 2;
        if !Before(heap[i], heap[p]) { break; }
        heap := heap[i := heap[p]][p := heap[i]];
        i := p;
      }
    }

    method Sink()
      requires |heap| > 0
      modifies this
      ensures heap == SiftDown(old(heap), 0)
    {
      var i := 0;
      while true
        invariant 0 <= i < |heap| && SiftDown(heap, i) == SiftDown(old(heap), 0)
        decreases |heap| - i
      {
        var l, r, m := 2 * i + 1, 2 * i + 2, i;
        if l < |heap| && Before(heap[l], heap[m]) { m := l; }
        if r < |heap| && Before(heap[r], heap[m]) { m := r; }
        if m == i { break; }
        heap := heap[i := heap[m]][m := heap[i]];
        i := m;
      }
    }

    method Pop() returns (top: Option<Event<P>>)
      modifies this
      ensures old(heap) == [] ==> top == None && heap == []
      ensures old(heap) != [] ==> top == Some(old(heap)[0]) && heap == PopFrom(old(heap))
      ensures HeapOk(old(heap)) && top.Some? ==>
        && HeapOk(heap) && multiset(heap) == multiset(old(heap)) - multiset{top.value}
        && forall e :: e in old(heap) ==> NoLater(top.value, e)
    {
      if |heap| == 0 { return None; }
      if HeapOk(heap) { PopOk(heap); }
      top := Some(heap[0]);
      var last := heap[|heap| - 1];
      heap := heap[..|heap| - 1];
      if |heap| > 0 {
        heap := heap[0 := last];
        Sink();
      }
    }

    method ToArray() returns (events: seq<Event<P>>)
      ensures events == heap
    {
      events := heap;
    }

    method LoadFrom(events: seq<Event<P>>)
      modifies this
      ensures heap == events
    {
      heap := events;
    }
  }
}
