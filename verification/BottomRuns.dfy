/** What holds in every run of the bottom level, wherever searches start: the
  * chain, and how the map of keys to values changes.
  */
module BottomRuns {
  import opened BottomList
  import opened BottomSteps

  // ---------------------------------------------------------------------------
  // The chain is the one a walk from head visits
  // ---------------------------------------------------------------------------

  ghost predicate Walk(nodes: Heap, w: seq<Ptr>) {
    && |w| > 0
    && forall i :: 0 <= i < |w| - 1 ==> w[i] in nodes && w[i] != TAIL && nodes[w[i]].next == w[i + 1]
  }

  ghost predicate Reachable(nodes: Heap, p: Ptr) {
    exists w :: Walk(nodes, w) && w[0] == HEAD && w[|w| - 1] == p
  }

  lemma {:induction false} WalkStaysLinked(g: Shared, w: seq<Ptr>, i: nat)
    requires ListInv(g) && Walk(g.nodes, w) && w[0] == HEAD && i < |w|
    ensures w[i] in g.linked
  {
    if i > 0 {
      WalkStaysLinked(g, w, i - 1);
      assert Stays(g.nodes, g.linked, w[i - 1]);
    }
  }

  ghost function Above(g: Shared, p: Ptr): set<Ptr>
    requires ListInv(g) && p in g.nodes
  {
    set m | m in g.linked && g.nodes[p].key < g.nodes[m].key
  }

  lemma {:induction false} WalkTo(g: Shared, p: Ptr, q: Ptr) returns (w: seq<Ptr>)
    requires ListInv(g) && p in g.linked && q in g.linked && g.nodes[p].key <= g.nodes[q].key
    ensures Walk(g.nodes, w) && w[0] == p && w[|w| - 1] == q
    decreases |Above(g, p)|
  {
    assert Ordered(g.nodes, p, q);
    if p == q { return [p]; }
    var n := g.nodes[p].next;
    assert Stays(g.nodes, g.linked, p) && Up(g.nodes, p);
    assert n in Above(g, p) && Above(g, n) <= Above(g, p) - {n};
    Fewer(Above(g, n), Above(g, p) - {n});
    var rest := WalkTo(g, n, q);
    w := [p] + rest;
  }

  lemma Fewer<T>(a: set<T>, b: set<T>)
    requires a <= b
    ensures |a| <= |b|
  {
    assert b == a + (b - a);
  }

  // In every reachable state the nodes a walk from head visits are exactly the
  // linked ones: a strictly sorted chain that ends in tail and misses no
  // unmarked node.
  lemma ReachableIffLinked(run: seq<State>, i: nat, p: Ptr)
    requires Behavior(run) && i < |run|
    ensures Reachable(run[i].g.nodes, p) <==> p in run[i].g.linked
    ensures Reachable(run[i].g.nodes, TAIL)
    ensures p in run[i].g.nodes && !run[i].g.nodes[p].marked ==> Reachable(run[i].g.nodes, p)
  {
    AlwaysInv(run, i);
    var g := run[i].g;
    forall q | q in g.linked ensures Reachable(g.nodes, q) {
      var w := WalkTo(g, HEAD, q);
    }
    if Reachable(g.nodes, p) {
      var w :| Walk(g.nodes, w) && w[0] == HEAD && w[|w| - 1] == p;
      WalkStaysLinked(g, w, |w| - 1);
    }
  }

  lemma {:induction false} WalkSorted(run: seq<State>, k: nat, w: seq<Ptr>, i: nat, j: nat)
    requires Behavior(run) && k < |run| && Walk(run[k].g.nodes, w) && w[0] == HEAD && i < j < |w|
    ensures w[i] in run[k].g.nodes && w[j] in run[k].g.nodes
    ensures run[k].g.nodes[w[i]].key < run[k].g.nodes[w[j]].key
  {
    AlwaysInv(run, k);
    var g := run[k].g;
    WalkStaysLinked(g, w, i);
    WalkStaysLinked(g, w, j);
    assert Up(g.nodes, w[j - 1]);
    if i < j - 1 { WalkSorted(run, k, w, i, j - 1); }
  }

  // ---------------------------------------------------------------------------
  // What one step does to the abstract set
  // ---------------------------------------------------------------------------

  ghost predicate Adds(s: State, s': State, k: real) {
    k !in Keys(s.g.nodes) && Keys(s'.g.nodes) == Keys(s.g.nodes) + {k}
  }

  ghost predicate Drops(s: State, s': State, k: real) {
    k in Keys(s.g.nodes) && Keys(s'.g.nodes) == Keys(s.g.nodes) - {k}
  }

  predicate Publishes(g: Shared, th: Thread, a: Action) {
    a.Go? && th.pc.Publish? && CasOk(g.nodes, th.pc.pred, th.pc.succ)
  }

  predicate Marks(g: Shared, th: Thread, a: Action) {
    a.Go? && th.pc.Mark? && CasOk(g.nodes, th.pc.node, th.pc.succ)
  }

  // The value swap of an insert that found its key.
  predicate Swaps(th: Thread, a: Action) {
    a.Go? && th.pc.Update?
  }

  // A successful publish adds the thread's key, a successful bottom mark drops
  // it, no other step changes the set; marked links never change again.
  lemma KeySetStep(s: State, t: Tid, a: Action, s': State)
    requires Inv(s) && Next(s, t, a, s')
    ensures Publishes(s.g, s.threads[t], a) ==> Adds(s, s', s.threads[t].key)
    ensures Marks(s.g, s.threads[t], a) ==> Drops(s, s', s.threads[t].key)
    ensures !Publishes(s.g, s.threads[t], a) && !Marks(s.g, s.threads[t], a) ==>
              Keys(s'.g.nodes) == Keys(s.g.nodes)
    ensures forall p :: p in s.g.nodes && s.g.nodes[p].marked ==> p in s'.g.nodes && s'.g.nodes[p] == s.g.nodes[p]
  {
    var th, g := s.threads[t], s.g;
    ListKept(g, th, a);
    if Publishes(g, th, a) {
      PublishAddsKey(g.nodes, g.linked, th.pc.pred, th.pc.succ, a.memory, th.key);
    } else if Marks(g, th, a) {
      MarkDropsKey(g.nodes, g.linked, th.pc.node);
    } else if a.Go? && th.pc.Splice? && CasOk(g.nodes, th.pc.pred, th.pc.curr) {
      SpliceKeepsKeys(g.nodes, th.pc.pred, th.pc.succ);
    }
  }

  // ---------------------------------------------------------------------------
  // What one step does to the abstract map
  // ---------------------------------------------------------------------------

  ghost function ValueAt(nodes: Heap, cells: Cells, k: real): Value
    requires k in Keys(nodes)
  {
    var p :| Holds(nodes, p, k);
    if p in cells then cells[p].value else 0
  }

  ghost function Entries(nodes: Heap, cells: Cells): map<real, Value> {
    map k | k in Keys(nodes) :: ValueAt(nodes, cells, k)
  }

  // The map the list stands for: every unmarked node's key and value.
  ghost function Contents(g: Shared): map<real, Value> { Entries(g.nodes, g.cells) }

  lemma ContentsAt(g: Shared, p: Ptr, k: real)
    requires ListInv(g) && Holds(g.nodes, p, k)
    ensures p in g.cells && k in Contents(g) && Contents(g)[k] == g.cells[p].value
  {
    assert CellOk(g.nodes, g.cells, p);
    assert k in Keys(g.nodes);
    forall q | Holds(g.nodes, q, k) ensures q == p { assert Ordered(g.nodes, p, q); }
  }

  // A map is the contents if it has the keys and every holder's value.
  lemma ContentsAre(g: Shared, m: map<real, Value>)
    requires ListInv(g) && m.Keys == Keys(g.nodes)
    requires forall p, k :: Holds(g.nodes, p, k) ==> p in g.cells && m[k] == g.cells[p].value
    ensures Contents(g) == m
  {
    forall k | k in m
      ensures k in Contents(g) && Contents(g)[k] == m[k]
    {
      var p :| Holds(g.nodes, p, k);
      ContentsAt(g, p, k);
    }
  }

  ghost predicate Unmoved(g: Shared, g': Shared) {
    forall p, k {:trigger Holds(g'.nodes, p, k)} :: Holds(g'.nodes, p, k) ==>
      Holds(g.nodes, p, k) && p in g.cells && p in g'.cells && g'.cells[p].value == g.cells[p].value
  }

  lemma SameContents(g: Shared, g': Shared)
    requires ListInv(g) && ListInv(g') && Keys(g'.nodes) == Keys(g.nodes) && Unmoved(g, g')
    ensures Contents(g') == Contents(g)
  {
    forall p, k | Holds(g'.nodes, p, k)
      ensures p in g'.cells && Contents(g)[k] == g'.cells[p].value
    {
      ContentsAt(g, p, k);
    }
    ContentsAre(g', Contents(g));
  }

  lemma PublishContents(g: Shared, th: Thread, a: Action)
    requires ListInv(g) && ThreadOk(g, th) && Enabled(g, th, a) && Publishes(g, th, a)
    ensures th.key !in Contents(g) && Contents(Outcome(g, th, a).1) == Contents(g)[th.key := th.val]
  {
    var g' := Outcome(g, th, a).1;
    ListKept(g, th, a);
    PublishAddsKey(g.nodes, g.linked, th.pc.pred, th.pc.succ, a.memory, th.key);
    forall p, k | Holds(g'.nodes, p, k)
      ensures p in g'.cells && Contents(g)[th.key := th.val][k] == g'.cells[p].value
    {
      if p == a.memory {
      } else {
        assert Holds(g.nodes, p, k);
        ContentsAt(g, p, k);
      }
    }
    ContentsAre(g', Contents(g)[th.key := th.val]);
  }

  lemma MarkContents(g: Shared, th: Thread, a: Action)
    requires ListInv(g) && ThreadOk(g, th) && Enabled(g, th, a) && Marks(g, th, a)
    ensures th.key in Contents(g) && Contents(Outcome(g, th, a).1) == Contents(g) - {th.key}
  {
    var g' := Outcome(g, th, a).1;
    ListKept(g, th, a);
    MarkDropsKey(g.nodes, g.linked, th.pc.node);
    forall p, k | Holds(g'.nodes, p, k)
      ensures p in g'.cells && k in Contents(g) && Contents(g)[k] == g'.cells[p].value && k != th.key
    {
      assert Holds(g.nodes, p, k);
      assert Ordered(g.nodes, p, th.pc.node);
      ContentsAt(g, p, k);
    }
    ContentsAre(g', Contents(g) - {th.key});
  }

  // A swap on a node that is still there overwrites; on a dead node it is not seen.
  lemma SwapContents(g: Shared, th: Thread, a: Action)
    requires ListInv(g) && ThreadOk(g, th) && Enabled(g, th, a) && Swaps(th, a)
    ensures th.pc.node in g.nodes
    ensures g.nodes[th.pc.node].marked ==> Contents(Outcome(g, th, a).1) == Contents(g)
    ensures !g.nodes[th.pc.node].marked ==>
              th.key in Contents(g) && Contents(Outcome(g, th, a).1) == Contents(g)[th.key := th.val]
  {
    var g' := Outcome(g, th, a).1;
    var n := th.pc.node;
    ListKept(g, th, a);
    if g.nodes[n].marked {
      forall p, k | Holds(g'.nodes, p, k)
        ensures Holds(g.nodes, p, k) && p in g.cells && p in g'.cells && g'.cells[p].value == g.cells[p].value
      {
        ContentsAt(g, p, k);
      }
      SameContents(g, g');
    } else {
      assert Holds(g.nodes, n, th.key);
      forall p, k | Holds(g'.nodes, p, k)
        ensures p in g'.cells && k in Contents(g) && Contents(g)[th.key := th.val][k] == g'.cells[p].value
      {
        ContentsAt(g, p, k);
        assert Ordered(g.nodes, p, n);
      }
      ContentsAt(g, n, th.key);
      ContentsAre(g', Contents(g)[th.key := th.val]);
    }
  }

  lemma OtherContents(g: Shared, th: Thread, a: Action)
    requires ListInv(g) && ThreadOk(g, th) && Enabled(g, th, a)
    requires !Publishes(g, th, a) && !Marks(g, th, a) && !Swaps(th, a)
    ensures Contents(Outcome(g, th, a).1) == Contents(g)
  {
    var g' := Outcome(g, th, a).1;
    ListKept(g, th, a);
    if a.Go? && th.pc.Splice? && CasOk(g.nodes, th.pc.pred, th.pc.curr) {
      SpliceKeepsKeys(g.nodes, th.pc.pred, th.pc.succ);
    }
    forall p, k | Holds(g'.nodes, p, k)
      ensures Holds(g.nodes, p, k) && p in g.cells && p in g'.cells && g'.cells[p].value == g.cells[p].value
    {
      assert Holds(g.nodes, p, k);
      ContentsAt(g, p, k);
    }
    SameContents(g, g');
  }

  // Publishing adds the entry, marking removes it, swapping the value of a live
  // node overwrites it, and no other step changes the map.
  lemma MapStep(s: State, t: Tid, a: Action, s': State)
    requires Inv(s) && Next(s, t, a, s')
    ensures
      var th, m, m' := s.threads[t], Contents(s.g), Contents(s'.g);
      if Publishes(s.g, th, a) then th.key !in m && m' == m[th.key := th.val]
      else if Marks(s.g, th, a) then th.key in m && m' == m - {th.key}
      else if Swaps(th, a) && th.pc.node in s.g.nodes && !s.g.nodes[th.pc.node].marked then
        th.key in m && m' == m[th.key := th.val]
      else m' == m
  {
    hide Entries, ListInv, ThreadOk;
    var th, g := s.threads[t], s.g;
    assert ListInv(g) && ThreadOk(g, th);
    if Publishes(g, th, a) {
      PublishContents(g, th, a);
    } else if Marks(g, th, a) {
      MarkContents(g, th, a);
    } else if Swaps(th, a) {
      SwapContents(g, th, a);
    } else {
      OtherContents(g, th, a);
    }
  }
}
