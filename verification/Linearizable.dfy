/** The Wing-Gong linearizability checker for one integer register, initially 0.
    A mask of seated operations is the set of their indices. */
module Linearizable {

  const CHECK_CAP: nat := 12

  datatype Op = Op(isWrite: bool, value: int, invokedAt: int, respondedAt: int)

  datatype Verdict = Accept | Violation(culprit: nat) | TooLong

  // ---------- what the checker decides ----------

  ghost predicate Distinct(order: seq<nat>) {
    forall a, b :: 0 <= a < b < |order| ==> order[a] != order[b]
  }

  ghost predicate Indices(ops: seq<Op>, order: seq<nat>) {
    forall a :: 0 <= a < |order| ==> order[a] < |ops|
  }

  /** The register after applying operations in this order. */
  ghost function Register(ops: seq<Op>, order: seq<nat>): int
    requires Indices(ops, order)
  {
    if order == [] then 0
    else
      var last := ops[order[|order| - 1]];
      if last.isWrite then last.value else Register(ops, order[..|order| - 1])
  }

  /** Every read returns what the register holds at its place. */
  ghost predicate ReadsAgree(ops: seq<Op>, order: seq<nat>)
    requires Indices(ops, order)
  {
    forall a :: 0 <= a < |order| && !ops[order[a]].isWrite ==> ops[order[a]].value == Register(ops, order[..a])
  }

  ghost predicate Before(ops: seq<Op>, i: nat, j: nat)
    requires i < |ops| && j < |ops|
  {
    ops[i].respondedAt < ops[j].invokedAt
  }

  /** A linearization: every operation once, never after one it finished before, reads legal. */
  ghost predicate Linearization(ops: seq<Op>, order: seq<nat>) {
    && Indices(ops, order) && Distinct(order) && |order| == |ops|
    && (forall a, b :: 0 <= a < b < |order| ==> !Before(ops, order[b], order[a]))
    && ReadsAgree(ops, order)
  }

  ghost predicate IsLinearizable(ops: seq<Op>) {
    exists order :: Linearization(ops, order)
  }

  ghost predicate WellTimed(ops: seq<Op>) {
    forall i :: 0 <= i < |ops| ==> ops[i].invokedAt <= ops[i].respondedAt
  }

  /** A start of a linearization: whoever is seated comes after everyone who finished before it began. */
  ghost predicate Seating(ops: seq<Op>, order: seq<nat>) {
    && Indices(ops, order) && Distinct(order)
    && (forall a, i :: 0 <= a < |order| && 0 <= i < |ops| && Before(ops, i, order[a]) ==> i in order[..a])
    && ReadsAgree(ops, order)
  }

  ghost function Seats(order: seq<nat>): set<nat> {
    set i | i in order
  }

  /** Some start of a linearization seats exactly `mask` and leaves the register at `reg`. */
  ghost predicate Reaches(ops: seq<Op>, mask: set<nat>, reg: int) {
    exists order :: Seating(ops, order) && Seats(order) == mask && Register(ops, order) == reg
  }

  ghost predicate Seatable(ops: seq<Op>, mask: set<nat>) {
    exists order :: Seating(ops, order) && Seats(order) == mask
  }

  function All(n: nat): (r: set<nat>)
    ensures forall i :: i in r <==> 0 <= i < n
  {
    if n == 0 then {} else All(n - 1) + {n - 1}
  }

  // ---------- starts of linearizations ----------

  lemma {:induction false} SeatsCount(order: seq<nat>)
    requires Distinct(order)
    ensures |Seats(order)| == |order|
  {
    if order != [] {
      var front := order[..|order| - 1];
      SeatsCount(front);
      assert Seats(order) == Seats(front) + {order[|order| - 1]};
    }
  }

  lemma {:induction false} AllCount(n: nat)
    ensures |All(n)| == n
  {
    if n > 0 {
      AllCount(n - 1);
      assert All(n) == All(n - 1) + {n - 1};
    }
  }

  lemma SubsetCount(a: set<nat>, b: set<nat>)
    requires a <= b
    ensures |a| <= |b|
    ensures |a| == |b| ==> a == b
  {
    assert b == a + (b - a);
  }

  lemma CompleteSeats(ops: seq<Op>, order: seq<nat>)
    requires Indices(ops, order) && Distinct(order)
    ensures Seats(order) <= All(|ops|) && |order| <= |ops|
    ensures |order| == |ops| <==> Seats(order) == All(|ops|)
  {
    SeatsCount(order);
    AllCount(|ops|);
    SubsetCount(Seats(order), All(|ops|));
  }

  /** On well-timed histories, linearizations are exactly the complete starts. */
  lemma CompleteStarts(ops: seq<Op>, order: seq<nat>)
    ensures WellTimed(ops) && Linearization(ops, order) <==> Seating(ops, order) && |order| == |ops|
  {
    if WellTimed(ops) && Linearization(ops, order) {
      CompleteSeats(ops, order);
      forall a, i | 0 <= a < |order| && 0 <= i < |ops| && Before(ops, i, order[a]) ensures i in order[..a] {
        assert i in All(|ops|) && i in Seats(order);
        var b :| 0 <= b < |order| && order[b] == i;
        assert a != b;
        assert b < a;
      }
    }
    if Seating(ops, order) && |order| == |ops| {
      CompleteSeats(ops, order);
      forall i | 0 <= i < |ops| ensures ops[i].invokedAt <= ops[i].respondedAt {
        assert i in All(|ops|) && i in Seats(order);
        var a :| 0 <= a < |order| && order[a] == i;
        assert order[a] !in order[..a];
      }
      forall a, b | 0 <= a < b < |order| ensures !Before(ops, order[b], order[a]) {
        assert order[b] !in order[..a];
      }
    }
  }

  lemma FrontSeating(ops: seq<Op>, order: seq<nat>)
    requires Seating(ops, order) && order != []
    ensures Seating(ops, order[..|order| - 1])
  {
    var front := order[..|order| - 1];
    forall a | 0 <= a < |front| ensures front[..a] == order[..a] {}
  }

  /** Seating one more operation whose predecessors are all seated. */
  lemma Seat(ops: seq<Op>, order: seq<nat>, j: nat)
    requires Seating(ops, order) && j < |ops| && j !in order
    requires forall i :: 0 <= i < |ops| && Before(ops, i, j) ==> i in order
    requires ops[j].isWrite || ops[j].value == Register(ops, order)
    ensures Seating(ops, order + [j])
    ensures Seats(order + [j]) == Seats(order) + {j}
    ensures Register(ops, order + [j]) == if ops[j].isWrite then ops[j].value else Register(ops, order)
  {
    var more := order + [j];
    assert more[..|order|] == order;
    forall a | 0 <= a <= |order| ensures more[..a] == order[..a] {}
  }

  // ---------- the search ----------

  /** j may be seated next on (mask, reg). */
  predicate CanSeat(ops: seq<Op>, precedes: seq<set<nat>>, mask: set<nat>, reg: int, j: nat)
    requires j < |ops| == |precedes|
  {
    j !in mask && precedes[j] <= mask && (ops[j].isWrite || ops[j].value == reg)
  }

  function After(op: Op, reg: int): int {
    if op.isWrite then op.value else reg
  }

  /** Everything reachable by seating one more operation has been explored too. */
  ghost predicate Expanded(ops: seq<Op>, precedes: seq<set<nat>>, seen: set<(set<nat>, int)>, mask: set<nat>, reg: int)
    requires |ops| == |precedes|
  {
    forall j :: 0 <= j < |ops| && CanSeat(ops, precedes, mask, reg, j) ==>
      (mask + {j}, After(ops[j], reg)) in seen
  }

  ghost predicate PrecedesOk(ops: seq<Op>, precedes: seq<set<nat>>) {
    |precedes| == |ops| &&
    forall i, j :: 0 <= i < |ops| && 0 <= j < |ops| ==> (i in precedes[j] <==> Before(ops, i, j))
  }

  ghost predicate PrecedesBounded(ops: seq<Op>, precedes: seq<set<nat>>) {
    forall i, j :: 0 <= j < |precedes| && i in precedes[j] ==> i < |ops|
  }

  lemma SeatMask(ops: seq<Op>, precedes: seq<set<nat>>, mask: set<nat>, reg: int, j: nat)
    requires PrecedesOk(ops, precedes) && Reaches(ops, mask, reg)
    requires j < |ops| && CanSeat(ops, precedes, mask, reg, j)
    ensures Reaches(ops, mask + {j}, After(ops[j], reg))
  {
    var order :| Seating(ops, order) && Seats(order) == mask && Register(ops, order) == reg;
    forall i | 0 <= i < |ops| && Before(ops, i, j) ensures i in order {
      assert i in precedes[j] && i in Seats(order);
    }
    Seat(ops, order, j);
  }

  lemma ReachedMask(ops: seq<Op>, mask: set<nat>, reg: int)
    requires Reaches(ops, mask, reg)
    ensures mask <= All(|ops|) && |mask| <= |ops|
    ensures mask == All(|ops|) ==> WellTimed(ops) && IsLinearizable(ops)
  {
    var order :| Seating(ops, order) && Seats(order) == mask && Register(ops, order) == reg;
    CompleteSeats(ops, order);
    SeatsCount(order);
    if mask == All(|ops|) {
      CompleteStarts(ops, order);
    }
  }

  /** An explored set closed under seating contains every reachable pair: pruning lost nothing. */
  lemma {:induction false} ClosedIsComplete(ops: seq<Op>, precedes: seq<set<nat>>, seen: set<(set<nat>, int)>, order: seq<nat>)
    requires PrecedesOk(ops, precedes) && PrecedesBounded(ops, precedes)
    requires ({}, 0) in seen
    requires Finished(ops, precedes, seen, 0)
    requires Seating(ops, order)
    ensures (Seats(order), Register(ops, order)) in seen
  {
    if order == [] {
      assert Seats(order) == {};
    } else {
      var k := |order| - 1;
      var front, j := order[..k], order[k];
      FrontSeating(ops, order);
      ClosedIsComplete(ops, precedes, seen, front);
      var mask, reg := Seats(front), Register(ops, front);
      assert j !in mask;
      assert precedes[j] <= mask by {
        forall i | i in precedes[j] ensures i in mask { assert Before(ops, i, order[k]); }
      }
      assert order[..k] == front;
      assert CanSeat(ops, precedes, mask, reg, j);
      assert Expanded(ops, precedes, seen, mask, reg);
      assert Seats(order) == mask + {j};
    }
  }

  /** What was explored was reachable and incomplete, and `best` is as large as any of it. */
  ghost predicate Frontier(ops: seq<Op>, seen: set<(set<nat>, int)>, best: set<nat>) {
    && Seatable(ops, best) && best != All(|ops|)
    && (forall p {:trigger Reaches(ops, p.0, p.1)} :: p in seen ==>
          Reaches(ops, p.0, p.1) && p.0 != All(|ops|) && |p.0| <= |best|)
  }

  lemma Entered(ops: seq<Op>, seen: set<(set<nat>, int)>, best: set<nat>, mask: set<nat>, reg: int)
    requires Frontier(ops, seen, best) && Reaches(ops, mask, reg) && mask != All(|ops|)
    ensures Frontier(ops, seen + {(mask, reg)}, if |mask| > |best| then mask else best)
  {
    assert Seatable(ops, mask);
    var more, b := seen + {(mask, reg)}, if |mask| > |best| then mask else best;
    forall p | p in more ensures Reaches(ops, p.0, p.1) && p.0 != All(|ops|) && |p.0| <= |b| {
      if p in seen { assert Reaches(ops, p.0, p.1); }
    }
  }

  class Search {
    const ops: seq<Op>
    const precedes: seq<set<nat>>
    const full: set<nat>
    var seen: set<(set<nat>, int)>
    var bestMask: set<nat>

    constructor (ops: seq<Op>, precedes: seq<set<nat>>, full: set<nat>)
      ensures this.ops == ops && this.precedes == precedes && this.full == full
      ensures seen == {} && bestMask == {}
    {
      this.ops, this.precedes, this.full := ops, precedes, full;
      seen := {};
      bestMask := {};
    }

    ghost predicate Ready()
      reads this
    {
      && PrecedesOk(ops, precedes) && PrecedesBounded(ops, precedes) && full == All(|ops|)
      && Frontier(ops, seen, bestMask)
    }

    /** Depth-first search below (mask, reg), remembering every pair ever entered. */
    method Dfs(mask: set<nat>, reg: int) returns (found: bool)
      requires Ready() && Reaches(ops, mask, reg)
      requires Finished(ops, precedes, seen, |mask|)
      modifies this
      ensures found ==> WellTimed(ops) && IsLinearizable(ops)
      ensures !found ==> Ready() && (mask, reg) in seen && Finished(ops, precedes, seen, |mask|)
      ensures !found ==> Deepened(old(seen), seen, |mask|)
      decreases |ops| - |mask|, 1
    {
      ReachedMask(ops, mask, reg);
      if mask == full { return true; }
      if (mask, reg) in seen { return false; }
      SubsetCount(mask, full);
      AllCount(|ops|);
      Entered(ops, seen, bestMask, mask, reg);
      EnteredFinished(ops, precedes, seen, mask, reg);
      ghost var before := seen;
      seen := seen + {(mask, reg)};
      if |mask| > |bestMask| { bestMask := mask; }
      found := Expand(mask, reg);
      if !found { DeepenedTrans(before, before + {(mask, reg)}, seen, |mask|); }
    }

    /** Try every operation that may be seated next. */
    method Expand(mask: set<nat>, reg: int) returns (found: bool)
      requires Ready() && Reaches(ops, mask, reg) && (mask, reg) in seen && |mask| < |ops|
      requires FinishedBut(ops, precedes, seen, |mask|, (mask, reg))
      modifies this
      ensures found ==> WellTimed(ops) && IsLinearizable(ops)
      ensures !found ==> Ready() && (mask, reg) in seen && Finished(ops, precedes, seen, |mask|)
      ensures !found ==> Deepened(old(seen), seen, |mask|)
      decreases |ops| - |mask|, 0
    {
      var j := 0;
      while j < |ops|
        invariant 0 <= j <= |ops|
        invariant Ready() && Deepened(old(seen), seen, |mask|)
        invariant FinishedBut(ops, precedes, seen, |mask|, (mask, reg))
        invariant Tried(ops, precedes, seen, mask, reg, j)
      {
        ghost var before := seen;
        if CanSeat(ops, precedes, mask, reg, j) {
          SeatMask(ops, precedes, mask, reg, j);
          Descend(ops, precedes, seen, mask, reg, j);
          var below := Dfs(mask + {j}, After(ops[j], reg));
          if below { return true; }
          Ascend(ops, precedes, before, seen, mask, reg, j);
          DeepenedTrans(old(seen), before, seen, |mask|);
        }
        TriedMore(ops, precedes, before, seen, mask, reg, j);
        j := j + 1;
      }
      assert Expanded(ops, precedes, seen, mask, reg);
      found := false;
    }
  }

  /** Everything explored with at least k operations seated is finished. */
  ghost predicate Finished(ops: seq<Op>, precedes: seq<set<nat>>, seen: set<(set<nat>, int)>, k: int)
    requires |ops| == |precedes|
  {
    forall p {:trigger Expanded(ops, precedes, seen, p.0, p.1)} :: p in seen && |p.0| >= k ==>
      Expanded(ops, precedes, seen, p.0, p.1)
  }

  ghost predicate FinishedBut(ops: seq<Op>, precedes: seq<set<nat>>, seen: set<(set<nat>, int)>, k: int, open: (set<nat>, int))
    requires |ops| == |precedes|
  {
    forall p {:trigger Expanded(ops, precedes, seen, p.0, p.1)} :: p in seen && |p.0| >= k && p != open ==>
      Expanded(ops, precedes, seen, p.0, p.1)
  }

  /** Exploring below k seated operations adds only pairs at least that deep. */
  ghost predicate Deepened(before: set<(set<nat>, int)>, seen: set<(set<nat>, int)>, k: int) {
    before <= seen && forall p :: p in seen && p !in before ==> |p.0| >= k
  }

  /** Of the first j operations, those that may be seated next have been tried. */
  ghost predicate Tried(ops: seq<Op>, precedes: seq<set<nat>>, seen: set<(set<nat>, int)>, mask: set<nat>, reg: int, j: nat)
    requires j <= |ops| == |precedes|
  {
    forall i :: 0 <= i < j && CanSeat(ops, precedes, mask, reg, i) ==> (mask + {i}, After(ops[i], reg)) in seen
  }

  lemma TriedMore(ops: seq<Op>, precedes: seq<set<nat>>, before: set<(set<nat>, int)>, seen: set<(set<nat>, int)>,
                  mask: set<nat>, reg: int, j: nat)
    requires j < |ops| == |precedes| && Tried(ops, precedes, before, mask, reg, j) && before <= seen
    requires CanSeat(ops, precedes, mask, reg, j) ==> (mask + {j}, After(ops[j], reg)) in seen
    ensures Tried(ops, precedes, seen, mask, reg, j + 1)
  {
  }

  lemma DeepenedTrans(a: set<(set<nat>, int)>, b: set<(set<nat>, int)>, c: set<(set<nat>, int)>, k: int)
    requires Deepened(a, b, k) && Deepened(b, c, k)
    ensures Deepened(a, c, k)
  {
  }

  lemma ExpandedStays(ops: seq<Op>, precedes: seq<set<nat>>, a: set<(set<nat>, int)>, b: set<(set<nat>, int)>, mask: set<nat>, reg: int)
    requires |ops| == |precedes| && a <= b && Expanded(ops, precedes, a, mask, reg)
    ensures Expanded(ops, precedes, b, mask, reg)
  {
  }

  lemma EnteredFinished(ops: seq<Op>, precedes: seq<set<nat>>, seen: set<(set<nat>, int)>, mask: set<nat>, reg: int)
    requires |ops| == |precedes| && Finished(ops, precedes, seen, |mask|)
    ensures FinishedBut(ops, precedes, seen + {(mask, reg)}, |mask|, (mask, reg))
  {
    var more := seen + {(mask, reg)};
    forall p | p in more && |p.0| >= |mask| && p != (mask, reg) ensures Expanded(ops, precedes, more, p.0, p.1) {
      ExpandedStays(ops, precedes, seen, more, p.0, p.1);
    }
  }

  lemma Descend(ops: seq<Op>, precedes: seq<set<nat>>, seen: set<(set<nat>, int)>, mask: set<nat>, reg: int, j: nat)
    requires |ops| == |precedes| && FinishedBut(ops, precedes, seen, |mask|, (mask, reg)) && j !in mask
    ensures |mask + {j}| == |mask| + 1 && Finished(ops, precedes, seen, |mask + {j}|)
  {
  }

  lemma Ascend(ops: seq<Op>, precedes: seq<set<nat>>, before: set<(set<nat>, int)>, seen: set<(set<nat>, int)>,
               mask: set<nat>, reg: int, j: nat)
    requires |ops| == |precedes| && FinishedBut(ops, precedes, before, |mask|, (mask, reg)) && j !in mask
    requires Deepened(before, seen, |mask + {j}|) && Finished(ops, precedes, seen, |mask + {j}|)
    ensures FinishedBut(ops, precedes, seen, |mask|, (mask, reg)) && Deepened(before, seen, |mask|)
  {
    forall p | p in seen && |p.0| >= |mask| && p != (mask, reg) ensures Expanded(ops, precedes, seen, p.0, p.1) {
      if p in before { ExpandedStays(ops, precedes, before, seen, p.0, p.1); }
    }
  }

  /** For each operation, those that must be linearized before it. */
  method Precedences(ops: seq<Op>) returns (precedes: seq<set<nat>>)
    ensures PrecedesOk(ops, precedes) && PrecedesBounded(ops, precedes)
  {
    precedes := [];
    for j := 0 to |ops|
      invariant |precedes| == j
      invariant forall i, k :: 0 <= i < |ops| && 0 <= k < j ==> (i in precedes[k] <==> Before(ops, i, k))
      invariant PrecedesBounded(ops, precedes)
    {
      var mask: set<nat> := {};
      for i := 0 to |ops|
        invariant forall k :: k in mask <==> 0 <= k < i && Before(ops, k, j)
      {
        if ops[i].respondedAt < ops[j].invokedAt { mask := mask + {i}; }
      }
      precedes := precedes + [mask];
    }
  }

  /** The verdict is exact; a violation names the first operation outside a largest seatable set. */
  ghost predicate Exact(ops: seq<Op>, v: Verdict) {
    && (v == TooLong <==> |ops| > CHECK_CAP)
    && (v == Accept <==> |ops| <= CHECK_CAP && WellTimed(ops) && IsLinearizable(ops))
    && (v.Violation? ==> exists best :: IsFrontier(ops, best) && IsCulprit(ops, best, v.culprit))
  }

  ghost predicate IsFrontier(ops: seq<Op>, best: set<nat>) {
    Seatable(ops, best) && forall s :: Seatable(ops, s) ==> |s| <= |best|
  }

  ghost predicate IsCulprit(ops: seq<Op>, best: set<nat>, j: nat) {
    j < |ops| && j !in best && forall i :: 0 <= i < j ==> i in best
  }

  lemma NothingReached(ops: seq<Op>)
    ensures Reaches(ops, {}, 0) && Seatable(ops, {})
  {
    assert Seating(ops, []) && Seats([]) == {} && Register(ops, []) == 0;
  }

  lemma EmptyIsLinearizable(ops: seq<Op>)
    requires ops == []
    ensures WellTimed(ops) && IsLinearizable(ops)
  {
    assert Linearization(ops, []);
  }

  /** A finished search that found nothing has seen everything: no linearization exists. */
  lemma SearchExhausted(ops: seq<Op>, precedes: seq<set<nat>>, seen: set<(set<nat>, int)>, best: set<nat>)
    requires PrecedesOk(ops, precedes) && PrecedesBounded(ops, precedes)
    requires ({}, 0) in seen
    requires Finished(ops, precedes, seen, 0) && Frontier(ops, seen, best)
    ensures !(WellTimed(ops) && IsLinearizable(ops))
    ensures IsFrontier(ops, best)
  {
    forall order | Seating(ops, order) ensures Seats(order) != All(|ops|) && |Seats(order)| <= |best| {
      ClosedIsComplete(ops, precedes, seen, order);
      assert Reaches(ops, Seats(order), Register(ops, order));
    }
    forall order | WellTimed(ops) && Linearization(ops, order) ensures Seating(ops, order) && Seats(order) == All(|ops|) {
      CompleteStarts(ops, order);
      CompleteSeats(ops, order);
    }
  }

  method CheckLinearizable(ops: seq<Op>) returns (v: Verdict)
    ensures Exact(ops, v)
  {
    if |ops| > CHECK_CAP { return TooLong; }
    if |ops| == 0 {
      EmptyIsLinearizable(ops);
      return Accept;
    }
    var precedes := Precedences(ops);
    var full := All(|ops|);
    var search := new Search(ops, precedes, full);
    NothingReached(ops);
    assert 0 in All(|ops|);
    var found := search.Dfs({}, 0);
    if found { return Accept; }
    ghost var best := search.bestMask;
    SearchExhausted(ops, precedes, search.seen, best);
    ReachedBest(ops, best);
    var j := Culprit(ops, search.bestMask);
    v := Violation(j);
  }

  /** The smallest operation outside the frontier; the source's fallback after the loop is dead code. */
  method Culprit(ops: seq<Op>, best: set<nat>) returns (j: nat)
    requires exists i :: 0 <= i < |ops| && i !in best
    ensures IsCulprit(ops, best, j)
  {
    j := 0;
    while j < |ops|
      invariant 0 <= j <= |ops|
      invariant forall i :: 0 <= i < j ==> i in best
    {
      if j !in best { return; }
      j := j + 1;
    }
    assert false;
  }

  lemma ReachedBest(ops: seq<Op>, best: set<nat>)
    requires Seatable(ops, best) && best != All(|ops|)
    ensures exists i :: 0 <= i < |ops| && i !in best
  {
    var order :| Seating(ops, order) && Seats(order) == best;
    CompleteSeats(ops, order);
  }
}
