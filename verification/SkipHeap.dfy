/** The memory of the skiplist as a value: nodes with their towers of links, and
  * what it means for every level to be a sorted chain.
  */
module SkipHeap {
  import opened Keys

  type Ptr = nat

  const NULL: Ptr := 0
  const HEAD: Ptr := 1
  const TAIL: Ptr := 2
  const MAX_HEIGHT: nat := 16

  // `next[l]` and `marked[l]` are the tagged forward link of level `l`.
  datatype Node = Node(key: BoundKey, value: Ptr, top: nat, next: seq<Ptr>, marked: seq<bool>)

  type Heap = map<Ptr, Node>
  type Levels = seq<set<Ptr>>     // the nodes linked at each level

  // The node is live and its tower reaches level `l`.
  predicate On(h: Heap, p: Ptr, l: nat) {
    p in h && l <= h[p].top && |h[p].next| == h[p].top + 1 && |h[p].marked| == h[p].top + 1
  }

  function RankOf(h: Heap, p: Ptr): real
    requires p in h
  {
    BoundRank(h[p].key)
  }

  function SetNext(h: Heap, p: Ptr, l: nat, q: Ptr): Heap
    requires On(h, p, l)
  {
    h[p := h[p].(next := h[p].next[l := q])]
  }

  function SetMark(h: Heap, p: Ptr, l: nat): Heap
    requires On(h, p, l)
  {
    h[p := h[p].(marked := h[p].marked[l := true])]
  }

  // ---------------------------------------------------------------------------
  // Levels as sorted chains
  // ---------------------------------------------------------------------------

  // The link of `p` stays on the level and leads to a larger key.
  ghost predicate Leads(h: Heap, linked: set<Ptr>, l: nat, p: Ptr) {
    && On(h, p, l) && h[p].next[l] in linked && h[p].next[l] in h
    && RankOf(h, p) < RankOf(h, h[p].next[l])
  }

  // The link of `p` does not jump over `q`, and `q` is not a second copy of `p`.
  ghost predicate Ordered(h: Heap, l: nat, p: Ptr, q: Ptr) {
    && On(h, p, l) && On(h, q, l)
    && (RankOf(h, p) == RankOf(h, q) ==> p == q)
    && (p != TAIL && RankOf(h, p) < RankOf(h, q) ==>
          h[p].next[l] in h && RankOf(h, h[p].next[l]) <= RankOf(h, q))
  }

  // `linked` is a strictly sorted chain from head to tail along the links of `l`.
  ghost predicate LevelOk(h: Heap, linked: set<Ptr>, l: nat) {
    && HEAD in linked && TAIL in linked
    && (forall p :: p in linked ==> On(h, p, l))
    && (forall p {:trigger Leads(h, linked, l, p)} :: p in linked && p != TAIL ==> Leads(h, linked, l, p))
    && (forall p, q {:trigger Ordered(h, l, p, q)} :: p in linked && q in linked ==> Ordered(h, l, p, q))
  }

  // Marks are set top-down: a node unmarked at a level is unmarked, and linked,
  // at the level below.
  ghost predicate Tower(h: Heap, levels: Levels, l: nat, p: Ptr) {
    && 0 < l < |levels| && On(h, p, l)
    && (!h[p].marked[l] ==> p in levels[l - 1] && !h[p].marked[l - 1])
  }

  ghost predicate Sentinels(h: Heap) {
    && HEAD in h && h[HEAD].key.NegInf? && h[HEAD].top == MAX_HEIGHT - 1
    && TAIL in h && h[TAIL].key.PosInf? && h[TAIL].top == MAX_HEIGHT - 1
    && (forall p :: p in h && p != HEAD && p != TAIL ==> h[p].key.Fin?)
    && (forall l :: 0 <= l < |h[HEAD].marked| ==> !h[HEAD].marked[l])
    && (forall l :: 0 <= l < |h[TAIL].marked| ==> !h[TAIL].marked[l])
    && (forall l :: 0 <= l < |h[TAIL].next| ==> h[TAIL].next[l] == NULL)
  }

  ghost predicate WellFormed(h: Heap, levels: Levels) {
    && |levels| == MAX_HEIGHT && Sentinels(h)
    && (forall l :: 0 <= l < MAX_HEIGHT ==> LevelOk(h, levels[l], l))
    && (forall l, p {:trigger Tower(h, levels, l, p)} ::
          0 < l < MAX_HEIGHT && p in levels[l] ==> Tower(h, levels, l, p))
  }

  lemma SomeLevel(h: Heap, levels: Levels)
    requires WellFormed(h, levels)
    ensures |levels| == MAX_HEIGHT
  {
  }

  // ---------------------------------------------------------------------------
  // One level under updates
  // ---------------------------------------------------------------------------

  // `h'` agrees with `h` on everything level `l` depends on.
  ghost predicate Agrees(h: Heap, h': Heap, linked: set<Ptr>, l: nat) {
    forall p :: p in linked && On(h, p, l) ==>
      On(h', p, l) && h'[p].key == h[p].key && h'[p].next[l] == h[p].next[l]
  }

  lemma LevelFrame(h: Heap, h': Heap, linked: set<Ptr>, l: nat)
    requires LevelOk(h, linked, l) && Agrees(h, h', linked, l)
    ensures LevelOk(h', linked, l)
  {
    hide BoundRank;
    forall p | p in linked && p != TAIL ensures Leads(h', linked, l, p) { assert Leads(h, linked, l, p); }
    forall p, q | p in linked && q in linked ensures Ordered(h', l, p, q) {
      assert Ordered(h, l, p, q);
      if p != TAIL { assert Leads(h, linked, l, p); }
    }
  }

  // Unlink `c`, the successor of `p`.
  lemma SpliceLeads(h: Heap, linked: set<Ptr>, l: nat, p: Ptr, c: Ptr, q: Ptr)
    requires LevelOk(h, linked, l) && p in linked && p != TAIL && h[p].next[l] == c && c != TAIL && c != HEAD
    requires On(h, c, l) && q in linked && q != c && q != TAIL
    ensures Leads(SetNext(h, p, l, h[c].next[l]), linked - {c}, l, q)
  {
    hide BoundRank;
    assert Leads(h, linked, l, p) && Leads(h, linked, l, c) && Leads(h, linked, l, q);
    if q != p { assert Ordered(h, l, p, q) && Ordered(h, l, q, p); }
  }

  lemma SpliceLevel(h: Heap, linked: set<Ptr>, l: nat, p: Ptr, c: Ptr)
    requires LevelOk(h, linked, l) && p in linked && p != TAIL && h[p].next[l] == c && c != TAIL && c != HEAD
    ensures On(h, c, l) && LevelOk(SetNext(h, p, l, h[c].next[l]), linked - {c}, l)
  {
    hide BoundRank;
    assert Leads(h, linked, l, p) && Leads(h, linked, l, c);
    var h', linked' := SetNext(h, p, l, h[c].next[l]), linked - {c};
    forall q | q in linked' && q != TAIL ensures Leads(h', linked', l, q) { SpliceLeads(h, linked, l, p, c, q); }
    forall a, b | a in linked' && b in linked' ensures Ordered(h', l, a, b) {
      assert Ordered(h, l, a, b);
      if a == p { assert Ordered(h, l, c, b); } else if a != TAIL { assert Leads(h, linked, l, a); }
    }
  }

  // Link `n` between `p` and its successor.
  lemma LinkLevel(h: Heap, linked: set<Ptr>, l: nat, p: Ptr, n: Ptr)
    requires LevelOk(h, linked, l) && p in linked && p != TAIL
    requires On(h, n, l) && n !in linked && h[n].next[l] == h[p].next[l] && h[p].next[l] in h
    requires RankOf(h, p) < RankOf(h, n) < RankOf(h, h[p].next[l])
    ensures LevelOk(SetNext(h, p, l, n), linked + {n}, l)
  {
    hide BoundRank;
    assert Leads(h, linked, l, p);
    var h', linked' := SetNext(h, p, l, n), linked + {n};
    forall q | q in linked' && q != TAIL ensures Leads(h', linked', l, q) {
      if q != n { assert Leads(h, linked, l, q); }
    }
    forall a, b | a in linked' && b in linked' ensures Ordered(h', l, a, b) {
      if a != n && b != n { assert Ordered(h, l, a, b); if a != TAIL { assert Leads(h, linked, l, a); } }
      if a == n && b != n { assert Ordered(h, l, p, b) && Ordered(h, l, b, p); }
      if a != n && b == n { assert Ordered(h, l, a, p) && Ordered(h, l, p, a); }
    }
  }

  // ---------------------------------------------------------------------------
  // The whole structure under the writes of the operations
  // ---------------------------------------------------------------------------

  // `h'` differs from `h` in links only, and `levels'` has lost nothing but
  // nodes that are marked at the level they left.
  ghost predicate Cleaned(h: Heap, levels: Levels, h': Heap, levels': Levels) {
    && h'.Keys == h.Keys && |levels'| == |levels|
    && (forall p :: p in h ==>
          && h'[p].key == h[p].key && h'[p].value == h[p].value && h'[p].top == h[p].top
          && h'[p].marked == h[p].marked && |h'[p].next| == |h[p].next|)
    && (forall l, p :: 0 <= l < |levels| && p in levels'[l] ==> p in levels[l])
    && (forall l, p :: 0 <= l < |levels| && p in levels[l] && On(h, p, l) && !h[p].marked[l] ==> p in levels'[l])
  }

  lemma CleanedSizes(h: Heap, levels: Levels, h': Heap, levels': Levels)
    requires Cleaned(h, levels, h', levels')
    ensures h'.Keys == h.Keys && |levels'| == |levels|
  {
  }

  lemma CleanedRefl(h: Heap, levels: Levels)
    ensures Cleaned(h, levels, h, levels)
  {
  }

  lemma CleanedTrans(h0: Heap, v0: Levels, h1: Heap, v1: Levels, h2: Heap, v2: Levels)
    requires Cleaned(h0, v0, h1, v1) && Cleaned(h1, v1, h2, v2)
    ensures Cleaned(h0, v0, h2, v2)
  {
  }

  // Only level `l` was cleaned.
  ghost predicate CleanedAt(h: Heap, levels: Levels, h': Heap, levels': Levels, l: nat) {
    && Cleaned(h, levels, h', levels')
    && (forall m :: 0 <= m < |levels| && m != l ==> levels'[m] == levels[m])
    && (forall p, m :: p in h && 0 <= m < |h[p].next| && m != l ==> h'[p].next[m] == h[p].next[m])
  }

  lemma CleanedAtTrans(h0: Heap, v0: Levels, h1: Heap, v1: Levels, h2: Heap, v2: Levels, l: nat)
    requires CleanedAt(h0, v0, h1, v1, l) && CleanedAt(h1, v1, h2, v2, l)
    ensures CleanedAt(h0, v0, h2, v2, l)
  {
    CleanedTrans(h0, v0, h1, v1, h2, v2);
  }

  // Splicing a marked node out of one level.
  lemma SpliceKeeps(h: Heap, levels: Levels, l: nat, p: Ptr, c: Ptr)
    requires WellFormed(h, levels) && l < MAX_HEIGHT && p in levels[l] && p != TAIL
    requires On(h, p, l) && h[p].next[l] == c && On(h, c, l) && h[c].marked[l]
    ensures var h' := SetNext(h, p, l, h[c].next[l]);
            var levels' := levels[l := levels[l] - {c}];
            WellFormed(h', levels') && CleanedAt(h, levels, h', levels', l)
  {
    hide BoundRank;
    var h' := SetNext(h, p, l, h[c].next[l]);
    var levels' := levels[l := levels[l] - {c}];
    SpliceLevel(h, levels[l], l, p, c);
    forall m | 0 <= m < MAX_HEIGHT ensures LevelOk(h', levels'[m], m) {
      if m != l { LevelFrame(h, h', levels[m], m); }
    }
    forall m, q | 0 < m < MAX_HEIGHT && q in levels'[m] ensures Tower(h', levels', m, q) {
      assert Tower(h, levels, m, q);
    }
  }

  // Linking an unmarked node at the next level of its tower.
  lemma LinkKeeps(h: Heap, levels: Levels, l: nat, p: Ptr, n: Ptr)
    requires WellFormed(h, levels) && l < MAX_HEIGHT && p in levels[l] && p != TAIL
    requires On(h, p, l) && On(h, n, l) && n !in levels[l] && h[n].next[l] == h[p].next[l] && h[p].next[l] in h
    requires RankOf(h, p) < RankOf(h, n) < RankOf(h, h[p].next[l])
    requires l > 0 ==> n in levels[l - 1] && !h[n].marked[l - 1]
    ensures WellFormed(SetNext(h, p, l, n), levels[l := levels[l] + {n}])
  {
    hide BoundRank;
    var h', levels' := SetNext(h, p, l, n), levels[l := levels[l] + {n}];
    LinkLevel(h, levels[l], l, p, n);
    forall m | 0 <= m < MAX_HEIGHT ensures LevelOk(h', levels'[m], m) {
      if m != l { LevelFrame(h, h', levels[m], m); }
    }
    forall m, q | 0 < m < MAX_HEIGHT && q in levels'[m] ensures Tower(h', levels', m, q) {
      if !(m == l && q == n) { assert Tower(h, levels, m, q); }
    }
  }

  // Marking a node whose higher levels are already marked.
  lemma MarkKeeps(h: Heap, levels: Levels, n: Ptr, l: nat)
    requires WellFormed(h, levels) && On(h, n, l) && n != HEAD && n != TAIL
    requires l < h[n].top ==> h[n].marked[l + 1]
    ensures WellFormed(SetMark(h, n, l), levels)
  {
    hide BoundRank;
    var h' := SetMark(h, n, l);
    forall m | 0 <= m < MAX_HEIGHT ensures LevelOk(h', levels[m], m) { LevelFrame(h, h', levels[m], m); }
    forall m, q | 0 < m < MAX_HEIGHT && q in levels[m] ensures Tower(h', levels, m, q) {
      assert Tower(h, levels, m, q);
    }
  }

  // Writing a node that is not linked anywhere, or a new one, or another value.
  lemma QuietKeeps(h: Heap, levels: Levels, n: Ptr, node: Node)
    requires WellFormed(h, levels) && n != HEAD && n != TAIL && node.key.Fin?
    requires n in h ==> node.(value := h[n].value) == h[n] || forall l :: 0 <= l < MAX_HEIGHT ==> n !in levels[l]
    ensures WellFormed(h[n := node], levels)
  {
    var h' := h[n := node];
    forall m | 0 <= m < MAX_HEIGHT ensures LevelOk(h', levels[m], m) {
      assert n !in h ==> n !in levels[m];
      LevelFrame(h, h', levels[m], m);
    }
    forall m, q | 0 < m < MAX_HEIGHT && q in levels[m] ensures Tower(h', levels, m, q) {
      assert Tower(h, levels, m, q);
    }
  }

  // ---------------------------------------------------------------------------
  // Searching
  // ---------------------------------------------------------------------------

  // `p` and `s` are unmarked neighbours of level `l` around rank `k`.
  ghost predicate Around(h: Heap, linked: set<Ptr>, l: nat, k: real, p: Ptr, s: Ptr) {
    && p in linked && s in linked && On(h, p, l) && On(h, s, l)
    && !h[p].marked[l] && !h[s].marked[l]
    && h[p].next[l] == s && RankOf(h, p) < k <= RankOf(h, s)
  }

  // Nothing else of the level has a rank from `k` up to that of `s`.
  lemma NothingBetween(h: Heap, linked: set<Ptr>, l: nat, k: real, p: Ptr, s: Ptr, q: Ptr)
    requires LevelOk(h, linked, l) && Around(h, linked, l, k, p, s) && q in linked && p != TAIL
    ensures q in h
    ensures RankOf(h, q) < k ==> RankOf(h, q) <= RankOf(h, p)
    ensures k <= RankOf(h, q) ==> RankOf(h, s) <= RankOf(h, q)
    ensures RankOf(h, q) == RankOf(h, s) ==> q == s
  {
    hide BoundRank;
    assert Ordered(h, l, p, q) && Ordered(h, l, q, s);
  }

  // Cleaning another level leaves the neighbours of this one.
  lemma AroundKept(h: Heap, levels: Levels, h': Heap, levels': Levels, l: nat, m: nat, k: real, p: Ptr, s: Ptr)
    requires CleanedAt(h, levels, h', levels', l) && m != l && m < |levels| && Around(h, levels[m], m, k, p, s)
    ensures Around(h', levels'[m], m, k, p, s)
  {
    hide BoundRank;
  }
}
