/** The skiplist run by one thread: search with helping, insert, lookup, remove
  * and teardown over an explicit memory.  Pointers are names of live nodes and
  * value cells; freeing removes the name, and a name is never reused.
  */
module SkipList {
  import opened Common
  import opened Keys
  import opened SkipHeap

  type Value = seq<Byte>
  type Cells = map<Ptr, Value>

  // What has been handed to deferred reclamation.
  datatype Garbage = NodeGarbage(p: Ptr) | CellGarbage(v: Ptr)

  // ---------------------------------------------------------------------------
  // What the structure means
  // ---------------------------------------------------------------------------

  // A node that holds an entry: on the bottom level and not marked there.
  predicate Live(h: Heap, linked: set<Ptr>, p: Ptr) {
    p in linked && p != HEAD && p != TAIL && On(h, p, 0) && !h[p].marked[0] && h[p].key.Fin?
  }

  predicate Holds(h: Heap, linked: set<Ptr>, p: Ptr, k: Key) {
    Live(h, linked, p) && h[p].key == Fin(k)
  }

  ghost predicate Represents(h: Heap, linked: set<Ptr>, cells: Cells, m: map<Key, Value>) {
    && (forall p :: Live(h, linked, p) ==>
          h[p].value in cells && h[p].key.key in m && m[h[p].key.key] == cells[h[p].value])
    && (forall k :: k in m ==> exists p :: Holds(h, linked, p, k))
  }

  // The node a lookup must arrive at: the first unmarked one from rank `k` on.
  ghost predicate First(h: Heap, linked: set<Ptr>, k: real, s: Ptr) {
    && s in linked && On(h, s, 0) && !h[s].marked[0] && k <= RankOf(h, s)
    && forall q :: q in linked && On(h, q, 0) && !h[q].marked[0] && k <= RankOf(h, q) ==> RankOf(h, s) <= RankOf(h, q)
  }

  lemma FirstUnique(h: Heap, linked: set<Ptr>, k: real, s: Ptr, t: Ptr)
    requires LevelOk(h, linked, 0) && First(h, linked, k, s) && First(h, linked, k, t)
    ensures s == t
  {
    assert Ordered(h, 0, s, t);
  }

  lemma FirstKept(h: Heap, levels: Levels, h': Heap, levels': Levels, k: real, s: Ptr)
    requires WellFormed(h, levels) && WellFormed(h', levels') && Cleaned(h, levels, h', levels')
    requires First(h, levels[0], k, s)
    ensures First(h', levels'[0], k, s) && LevelOk(h', levels'[0], 0)
    ensures forall p :: p in levels'[0] ==> On(h', p, 0)
  {
    assert LevelOk(h', levels'[0], 0);
    forall q | q in levels'[0] && On(h', q, 0) && !h'[q].marked[0] && k <= RankOf(h', q)
      ensures RankOf(h', s) <= RankOf(h', q)
    {
      assert q in levels[0] && On(h, q, 0);
    }
  }

  lemma FirstDecides(h: Heap, levels: Levels, cells: Cells, m: map<Key, Value>, key: Key, s: Ptr)
    requires WellFormed(h, levels) && Represents(h, levels[0], cells, m) && First(h, levels[0], Rank(key), s)
    ensures KeyEq(h[s].key, key) <==> key in m
    ensures key in m ==> Live(h, levels[0], s) && h[s].value in cells && m[key] == cells[h[s].value]
  {
    CompareRanks(h[s].key, key);
    if key in m {
      var p :| Holds(h, levels[0], p, key);
      CompareRanks(h[p].key, key);
      assert Ordered(h, 0, s, p);
    }
  }

  lemma AroundIsFirst(h: Heap, levels: Levels, k: real, p: Ptr, s: Ptr)
    requires WellFormed(h, levels) && Around(h, levels[0], 0, k, p, s) && k < 2.0
    ensures First(h, levels[0], k, s)
  {
    forall q | q in levels[0] && On(h, q, 0) && !h[q].marked[0] && k <= RankOf(h, q)
      ensures RankOf(h, s) <= RankOf(h, q)
    {
      NothingBetween(h, levels[0], 0, k, p, s, q);
    }
  }

  lemma CleanedRepresents(h: Heap, levels: Levels, h': Heap, levels': Levels, cells: Cells, m: map<Key, Value>)
    requires |levels| > 0 && Cleaned(h, levels, h', levels') && |levels'| > 0 && Represents(h, levels[0], cells, m)
    requires forall p :: p in levels'[0] ==> On(h', p, 0)
    ensures Represents(h', levels'[0], cells, m)
  {
    assert forall p :: Live(h', levels'[0], p) ==> Live(h, levels[0], p);
    assert forall p, k :: Holds(h, levels[0], p, k) ==> Holds(h', levels'[0], p, k);
  }

  lemma OneHolder(h: Heap, linked: set<Ptr>, p: Ptr, q: Ptr)
    requires LevelOk(h, linked, 0) && Live(h, linked, p) && Live(h, linked, q) && h[p].key == h[q].key
    ensures p == q
  {
    assert Ordered(h, 0, p, q);
  }

  // The entry of a live node gets a new cell.
  lemma UpdateMeans(h: Heap, linked: set<Ptr>, cells: Cells, m: map<Key, Value>, p: Ptr, k: Key, v: Ptr, val: Value)
    requires LevelOk(h, linked, 0) && Represents(h, linked, cells, m) && Holds(h, linked, p, k) && v !in cells
    ensures Represents(h[p := h[p].(value := v)], linked, cells[v := val], m[k := val])
  {
    var h' := h[p := h[p].(value := v)];
    assert forall q, j :: Holds(h', linked, q, j) <==> Holds(h, linked, q, j);
    forall q | Live(h', linked, q) && q != p ensures h[q].key != h[p].key {
      if h[q].key == h[p].key { OneHolder(h, linked, p, q); }
    }
  }

  // A new node joins the bottom level.
  lemma InsertMeans(h: Heap, linked: set<Ptr>, cells: Cells, m: map<Key, Value>, h': Heap, n: Ptr, k: Key, v: Ptr,
      val: Value)
    requires Represents(h, linked, cells, m) && n !in linked && v !in cells && k !in m
    requires Holds(h', linked + {n}, n, k) && h'[n].value == v
    requires forall p :: p in linked ==>
               p in h && p in h' && h'[p].key == h[p].key && h'[p].value == h[p].value && h'[p].marked == h[p].marked
               && h'[p].top == h[p].top && |h'[p].next| == |h[p].next|
    ensures Represents(h', linked + {n}, cells[v := val], m[k := val])
  {
    var linked' := linked + {n};
    assert forall p :: Live(h', linked', p) && p != n ==> Live(h, linked, p);
    assert forall p, j :: Holds(h, linked, p, j) ==> Holds(h', linked', p, j);
  }

  // `n` is marked at level `from` and above; nothing else changed.
  ghost predicate MarkedFrom(h: Heap, h': Heap, n: Ptr, from: nat) {
    && n in h && h'.Keys == h.Keys && (forall p :: p in h && p != n ==> h'[p] == h[p])
    && h'[n] == h[n].(marked := h'[n].marked) && |h'[n].marked| == |h[n].marked|
    && (forall l :: 0 <= l < |h[n].marked| && l < from ==> h'[n].marked[l] == h[n].marked[l])
    && (forall l :: from <= l < |h[n].marked| ==> h'[n].marked[l])
  }

  lemma MarkStep(h0: Heap, h: Heap, n: Ptr, l: nat)
    requires MarkedFrom(h0, h, n, l + 1) && On(h, n, l)
    ensures MarkedFrom(h0, SetMark(h, n, l), n, l)
  {
  }

  // A bottom mark takes the entry away.
  lemma MarkMeans(h: Heap, linked: set<Ptr>, cells: Cells, m: map<Key, Value>, h': Heap, n: Ptr, k: Key)
    requires LevelOk(h, linked, 0) && Represents(h, linked, cells, m) && Holds(h, linked, n, k) &&
        MarkedFrom(h, h', n, 0)
    ensures Represents(h', linked, cells, m - {k})
  {
    forall q | Live(h', linked, q) ensures Live(h, linked, q) && q != n && h[q].key != Fin(k) {
      if h[q].key == h[n].key { OneHolder(h, linked, n, q); }
    }
    forall j | j in m - {k} ensures exists q :: Holds(h', linked, q, j) {
      var q :| Holds(h, linked, q, j);
      assert Holds(h', linked, q, j);
    }
  }

  // ---------------------------------------------------------------------------
  // Who owns what
  // ---------------------------------------------------------------------------

  predicate IsData(p: Ptr) { p != HEAD && p != TAIL }

  // Every live node is on the bottom level or retired, not both; every live
  // cell belongs to one node or is retired, not both; nothing is retired twice.
  ghost predicate Owned(h: Heap, linked: set<Ptr>, cells: Cells, retired: seq<Garbage>, brk: Ptr) {
    && (forall p :: p in h ==> NULL < p < brk) && (forall v :: v in cells ==> NULL < v < brk)
    && (forall i, j :: 0 <= i < j < |retired| ==> retired[i] != retired[j])
    && (forall p :: p in h ==> (p in linked <==> NodeGarbage(p) !in retired))
    && (forall p :: NodeGarbage(p) in retired ==> p in h && IsData(p))
    && (forall p :: p in h && !IsData(p) ==> h[p].value == NULL)
    && (forall v :: CellGarbage(v) in retired ==> v in cells)
    && (forall p :: p in h && IsData(p) ==> h[p].value in cells && CellGarbage(h[p].value) !in retired)
    && (forall p, q :: p in h && q in h && IsData(p) && IsData(q) && h[p].value == h[q].value ==> p == q)
    && (forall v :: v in cells && CellGarbage(v) !in retired ==> exists p :: OwnsCell(h, p, v))
  }

  predicate OwnsCell(h: Heap, p: Ptr, v: Ptr) {
    p in h && IsData(p) && h[p].value == v
  }

  // Writing links and marks, and unlinking nothing, moves no ownership.
  lemma LinksMoveNothing(h: Heap, linked: set<Ptr>, h': Heap, cells: Cells, retired: seq<Garbage>, brk: Ptr)
    requires Owned(h, linked, cells, retired, brk) && h'.Keys == h.Keys
    requires forall p :: p in h ==> h'[p].value == h[p].value
    ensures Owned(h', linked, cells, retired, brk)
  {
    assert forall p, v :: OwnsCell(h, p, v) <==> OwnsCell(h', p, v);
  }

  lemma UpdateOwned(h: Heap, linked: set<Ptr>, cells: Cells, retired: seq<Garbage>, brk: Ptr, p: Ptr, val: Value)
    requires Owned(h, linked, cells, retired, brk) && p in h && IsData(p) && p in linked && NULL < brk
    ensures Owned(h[p := h[p].(value := brk)], linked, cells[brk := val],
                  retired + [CellGarbage(h[p].value)], brk + 1)
  {
    var h' := h[p := h[p].(value := brk)];
    assert OwnsCell(h', p, brk);
    assert forall q, v :: OwnsCell(h, q, v) && q != p ==> OwnsCell(h', q, v);
  }

  lemma InsertOwned(h: Heap, linked: set<Ptr>, cells: Cells, retired: seq<Garbage>, brk: Ptr, node: Node, val: Value)
    requires Owned(h, linked, cells, retired, brk) && node.value == brk && TAIL < brk
    requires forall p :: p in linked ==> p in h
    ensures Owned(h[brk + 1 := node], linked + {brk + 1}, cells[brk := val], retired, brk + 2)
  {
    var h' := h[brk + 1 := node];
    assert OwnsCell(h', brk + 1, brk);
    assert forall q, v :: OwnsCell(h, q, v) ==> OwnsCell(h', q, v);
  }

  lemma FreeLinked(h: Heap, left: set<Ptr>, cells: Cells, retired: seq<Garbage>, brk: Ptr, p: Ptr)
    requires Owned(h, left, cells, retired, brk) && p in left && p in h
    ensures h[p].value != NULL ==> h[p].value in cells
    ensures Owned(h - {p}, left - {p}, if h[p].value == NULL then cells else cells - {h[p].value}, retired, brk)
  {
    var h', cells' := h - {p}, if h[p].value == NULL then cells else cells - {h[p].value};
    assert forall q, v :: OwnsCell(h, q, v) && q != p ==> OwnsCell(h', q, v);
  }

  // The rest of a duplicate-free list.
  lemma Popped(retired: seq<Garbage>, g: Garbage)
    requires retired != [] && forall i, j :: 0 <= i < j < |retired| ==> retired[i] != retired[j]
    ensures g in retired[1..] <==> g in retired && g != retired[0]
    ensures retired[0] in retired
  {
    assert retired == [retired[0]] + retired[1..];
  }

  lemma FreeRetiredNode(h: Heap, cells: Cells, retired: seq<Garbage>, brk: Ptr, p: Ptr)
    requires Owned(h, {}, cells, retired, brk) && retired != [] && retired[0] == NodeGarbage(p)
    ensures p in h && h[p].value != NULL && h[p].value in cells
    ensures Owned(h - {p}, {}, cells - {h[p].value}, retired[1..], brk)
  {
    Popped(retired, retired[0]);
    NotYetOwned(h, cells, retired, brk, p);
    FreeLinked(h, {p}, cells, retired[1..], brk, p);
    assert {p} - {p} == {};
  }

  // Taking a node off the retire list makes its reclaimer the owner.
  lemma NotYetOwned(h: Heap, cells: Cells, retired: seq<Garbage>, brk: Ptr, p: Ptr)
    requires Owned(h, {}, cells, retired, brk) && retired != [] && retired[0] == NodeGarbage(p)
    ensures p in h && h[p].value != NULL && Owned(h, {p}, cells, retired[1..], brk)
  {
    forall g ensures g in retired[1..] <==> g in retired && g != retired[0] { Popped(retired, g); }
    Popped(retired, retired[0]);
  }

  lemma FreeRetiredCell(h: Heap, cells: Cells, retired: seq<Garbage>, brk: Ptr, v: Ptr)
    requires Owned(h, {}, cells, retired, brk) && retired != [] && retired[0] == CellGarbage(v)
    ensures v in cells && Owned(h, {}, cells - {v}, retired[1..], brk)
  {
    forall g ensures g in retired[1..] <==> g in retired && g != retired[0] { Popped(retired, g); }
    Popped(retired, retired[0]);
  }

  lemma NothingOwned(h: Heap, cells: Cells, brk: Ptr)
    requires Owned(h, {}, cells, [], brk)
    ensures h == map[] && cells == map[]
  {
    assert forall v :: v in cells ==> exists p :: OwnsCell(h, p, v);
  }

  lemma RetireOwned(h: Heap, linked: set<Ptr>, cells: Cells, retired: seq<Garbage>, brk: Ptr, p: Ptr)
    requires Owned(h, linked, cells, retired, brk) && p in h && p in linked && IsData(p)
    ensures Owned(h, linked - {p}, cells, retired + [NodeGarbage(p)], brk)
  {
  }

  // No successor found has the key itself.
  ghost predicate Misses(h: Heap, maxLevel: nat, key: Key, succs: seq<Ptr>) {
    maxLevel < |succs| && forall l :: 0 <= l <= maxLevel ==> succs[l] in h && RankOf(h, succs[l]) != Rank(key)
  }

  // `preds` and `succs` are the neighbours of rank `k` at levels `from..to`.
  ghost predicate Brackets(h: Heap, levels: Levels, from: nat, to: nat, k: real, preds: seq<Ptr>, succs: seq<Ptr>) {
    && to < |levels| && to < |preds| && to < |succs|
    && forall l :: from <= l <= to ==> Around(h, levels[l], l, k, preds[l], succs[l])
  }

  lemma BracketsGrow(h: Heap, levels: Levels, h': Heap, levels': Levels, l: nat, to: nat, k: real,
                     preds: seq<Ptr>, succs: seq<Ptr>, p: Ptr, s: Ptr)
    requires CleanedAt(h, levels, h', levels', l) && l <= to && Brackets(h, levels, l + 1, to, k, preds, succs)
    requires Around(h', levels'[l], l, k, p, s)
    ensures Brackets(h', levels', l, to, k, preds[l := p], succs[l := s])
  {
    forall m | l < m <= to ensures Around(h', levels'[m], m, k, preds[m], succs[m]) {
      AroundKept(h, levels, h', levels', l, m, k, preds[m], succs[m]);
    }
  }

  // Any well-formed memory, with any nodes marked, for a list of this height.
  ghost predicate ShapeOf(h: Heap, levels: Levels, maxLevel: nat) {
    && WellFormed(h, levels) && maxLevel < MAX_HEIGHT
    && (forall p :: p in h ==> On(h, p, h[p].top))
    && (forall p :: p in h && IsData(p) ==> h[p].top <= maxLevel)
    && (forall l :: maxLevel < l < MAX_HEIGHT ==> levels[l] == {HEAD, TAIL})
  }

  // ---------------------------------------------------------------------------
  // The state between operations
  // ---------------------------------------------------------------------------

  // No linked node is marked, and every node is linked at all levels of its
  // tower: level `l` holds exactly the bottom nodes whose tower reaches `l`.
  ghost predicate Tidy(h: Heap, levels: Levels) {
    && (forall l, p :: 0 <= l < |levels| && p in levels[l] ==> On(h, p, l) && !h[p].marked[l])
    && (forall l, p :: 0 <= l < |levels| && p in levels[0] && On(h, p, l) ==> p in levels[l])
  }

  lemma TidyCleaned(h: Heap, levels: Levels, h': Heap, levels': Levels)
    requires |levels| > 0 && Tidy(h, levels) && Cleaned(h, levels, h', levels')
    ensures levels' == levels && Tidy(h', levels')
  {
    forall l | 0 <= l < |levels| ensures levels'[l] == levels[l] {
      forall p | p in levels[l] ensures p in levels'[l] { assert On(h, p, l); }
    }
    forall l, p | 0 <= l < |levels'| && p in levels'[l] ensures On(h', p, l) && !h'[p].marked[l] {
      assert p in levels[l] && On(h, p, l);
    }
  }

  // In a tidy state a node of any level is on the bottom level.
  lemma {:induction false} DownToBottom(h: Heap, levels: Levels, l: nat, p: Ptr)
    requires WellFormed(h, levels) && Tidy(h, levels) && l < MAX_HEIGHT && p in levels[l]
    ensures p in levels[0]
  {
    if l > 0 {
      assert Tower(h, levels, l, p);
      DownToBottom(h, levels, l - 1, p);
    }
  }

  // `n` has been linked at levels below `upto`; nothing but links changed.
  ghost predicate Raised(h: Heap, levels: Levels, h': Heap, levels': Levels, n: Ptr, upto: nat) {
    && h'.Keys == h.Keys && |levels'| == |levels| && n in h && h'[n] == h[n]
    && (forall p :: p in h ==>
          && h'[p].key == h[p].key && h'[p].value == h[p].value && h'[p].top == h[p].top
          && h'[p].marked == h[p].marked && |h'[p].next| == |h[p].next|)
    && (forall l :: 0 <= l < |levels| ==> levels'[l] == if l < upto then levels[l] + {n} else levels[l])
  }

  // The node of `k` is on the levels up to `top`, and on no other.
  ghost predicate Tall(h: Heap, levels: Levels, n: Ptr, k: Key, top: nat) {
    && n in h && h[n].key == Fin(k) && h[n].top == top
    && forall l :: 0 <= l < |levels| ==> (n in levels[l] <==> l <= top)
  }

  lemma RaisedIsTall(h: Heap, levels: Levels, h': Heap, levels': Levels, n: Ptr, k: Key, top: nat)
    requires Raised(h, levels, h', levels', n, top + 1) && h[n].key == Fin(k) && h[n].top == top
    requires forall l :: 0 <= l < |levels| ==> n !in levels[l]
    ensures Tall(h', levels', n, k, top)
  {
  }

  lemma BracketsAfterLink(h: Heap, levels: Levels, l: nat, to: nat, k: real, preds: seq<Ptr>, succs: seq<Ptr>, n: Ptr)
    requires Brackets(h, levels, l, to, k, preds, succs) && l <= to
    ensures Brackets(SetNext(h, preds[l], l, n), levels[l := levels[l] + {n}], l + 1, to, k, preds, succs)
  {
    forall m | l < m <= to
      ensures Around(SetNext(h, preds[l], l, n), levels[l := levels[l] + {n}][m], m, k, preds[m], succs[m])
    {
      assert Around(h, levels[m], m, k, preds[m], succs[m]);
    }
  }

  lemma BracketsWithNode(h: Heap, levels: Levels, to: nat, k: real, preds: seq<Ptr>, succs: seq<Ptr>, n: Ptr,
      node: Node)
    requires Brackets(h, levels, 0, to, k, preds, succs) && n !in h
    ensures Brackets(h[n := node], levels, 0, to, k, preds, succs)
  {
    forall m | 0 <= m <= to ensures Around(h[n := node], levels[m], m, k, preds[m], succs[m]) {
      assert Around(h, levels[m], m, k, preds[m], succs[m]);
    }
  }

  lemma RaisedTidy(h: Heap, levels: Levels, h': Heap, levels': Levels, n: Ptr)
    requires |levels| > 0 && n in h && Raised(h, levels, h', levels', n, h[n].top + 1)
    requires Tidy(h, levels)
    requires forall l :: 0 <= l <= h[n].top ==> On(h, n, l) && !h[n].marked[l]
    ensures Tidy(h', levels')
  {
    forall l, p | 0 <= l < |levels'| && p in levels'[l] ensures On(h', p, l) && !h'[p].marked[l] {
      assert p in levels[l] || p == n;
      assert On(h, p, l);
    }
    forall l, p | 0 <= l < |levels'| && p in levels'[0] && On(h', p, l) ensures p in levels'[l] {
      assert On(h, p, l);
    }
  }

  lemma UpdateShape(h: Heap, levels: Levels, maxLevel: nat, p: Ptr, v: Ptr)
    requires ShapeOf(h, levels, maxLevel) && Tidy(h, levels) && p in h && IsData(p)
    ensures ShapeOf(h[p := h[p].(value := v)], levels, maxLevel) && Tidy(h[p := h[p].(value := v)], levels)
  {
    var h' := h[p := h[p].(value := v)];
    QuietKeeps(h, levels, p, h[p].(value := v));
    assert forall q, l :: On(h', q, l) <==> On(h, q, l);
  }

  lemma MarkShape(h: Heap, levels: Levels, maxLevel: nat, n: Ptr, l: nat)
    requires ShapeOf(h, levels, maxLevel) && On(h, n, l) && IsData(n) && (l < h[n].top ==> h[n].marked[l + 1])
    ensures ShapeOf(SetMark(h, n, l), levels, maxLevel)
    ensures h[n].marked[l] ==> SetMark(h, n, l) == h
  {
    MarkKeeps(h, levels, n, l);
    assert h[n].marked[l] ==> h[n].marked[l := true] == h[n].marked;
  }

  lemma RaisedStep(h0: Heap, v0: Levels, h: Heap, v: Levels, n: Ptr, l: nat, p: Ptr)
    requires Raised(h0, v0, h, v, n, l) && l < |v0| && On(h, p, l) && p != n
    ensures Raised(h0, v0, SetNext(h, p, l, n), v[l := v[l] + {n}], n, l + 1)
  {
  }

  // The state between two operations of one thread.
  ghost predicate ValidOf(h: Heap, levels: Levels, maxLevel: nat, cells: Cells, m: map<Key, Value>,
                          retired: seq<Garbage>, brk: Ptr)
  {
    && ShapeOf(h, levels, maxLevel) && Tidy(h, levels)
    && Represents(h, levels[0], cells, m)
    && TAIL < brk && Owned(h, levels[0], cells, retired, brk)
  }

  lemma UpdateValid(h: Heap, levels: Levels, maxLevel: nat, cells: Cells, m: map<Key, Value>,
                    retired: seq<Garbage>, brk: Ptr, p: Ptr, k: Key, val: Value)
    requires ValidOf(h, levels, maxLevel, cells, m, retired, brk) && Holds(h, levels[0], p, k)
    ensures ValidOf(h[p := h[p].(value := brk)], levels, maxLevel, cells[brk := val], m[k := val],
                    retired + [CellGarbage(h[p].value)], brk + 1)
    ensures k in m
  {
    assert brk !in cells;
    UpdateMeans(h, levels[0], cells, m, p, k, brk, val);
    UpdateOwned(h, levels[0], cells, retired, brk, p, val);
    UpdateShape(h, levels, maxLevel, p, brk);
  }

  lemma CleanedValid(h: Heap, levels: Levels, maxLevel: nat, cells: Cells, m: map<Key, Value>,
                     retired: seq<Garbage>, brk: Ptr, h': Heap, levels': Levels)
    requires ValidOf(h, levels, maxLevel, cells, m, retired, brk)
    requires ShapeOf(h', levels', maxLevel) && Cleaned(h, levels, h', levels')
    ensures levels' == levels && ValidOf(h', levels', maxLevel, cells, m, retired, brk)
    ensures forall p, k :: Holds(h', levels'[0], p, k) <==> Holds(h, levels[0], p, k)
  {
    TidyCleaned(h, levels, h', levels');
    CleanedRepresents(h, levels, h', levels', cells, m);
    LinksMoveNothing(h, levels[0], h', cells, retired, brk);
  }

  lemma ValidParts(h: Heap, levels: Levels, maxLevel: nat, cells: Cells, m: map<Key, Value>,
                   retired: seq<Garbage>, brk: Ptr)
    requires ValidOf(h, levels, maxLevel, cells, m, retired, brk)
    ensures ShapeOf(h, levels, maxLevel) && TAIL < brk
    ensures brk !in h && brk + 1 !in h && brk !in cells
  {
  }

  lemma ValidMeans(h: Heap, levels: Levels, maxLevel: nat, cells: Cells, m: map<Key, Value>,
                   retired: seq<Garbage>, brk: Ptr)
    requires ValidOf(h, levels, maxLevel, cells, m, retired, brk)
    ensures ShapeOf(h, levels, maxLevel) && Represents(h, levels[0], cells, m)
  {
  }

  // What a search between operations has found out.
  lemma SearchMeans(h: Heap, levels: Levels, maxLevel: nat, cells: Cells, m: map<Key, Value>,
                    retired: seq<Garbage>, brk: Ptr, key: Key, preds: seq<Ptr>, succs: seq<Ptr>)
    requires ValidOf(h, levels, maxLevel, cells, m, retired, brk) && 0 < |succs|
    requires Brackets(h, levels, 0, maxLevel, Rank(key), preds, succs) && First(h, levels[0], Rank(key), succs[0])
    ensures KeyEq(h[succs[0]].key, key) <==> key in m
    ensures key in m ==> Holds(h, levels[0], succs[0], key)
    ensures key !in m ==> Misses(h, maxLevel, key, succs)
  {
    FirstDecides(h, levels, cells, m, key, succs[0]);
    if key !in m {
      forall l | 0 <= l <= maxLevel ensures succs[l] in h && RankOf(h, succs[l]) != Rank(key) {
        assert Around(h, levels[l], l, Rank(key), preds[l], succs[l]);
        AbsentEverywhere(h, levels, cells, m, key, l, succs[l]);
      }
    }
  }

  // Two fresh names: `v` for the value cell, `v + 1` for the node; `h'` has the
  // node linked.
  lemma InsertValid(h: Heap, levels: Levels, maxLevel: nat, cells: Cells, m: map<Key, Value>, retired: seq<Garbage>,
                    v: Ptr, k: Key, val: Value, node: Node, h': Heap, levels': Levels)
    requires ValidOf(h, levels, maxLevel, cells, m, retired, v) && k !in m && Fresh(node, maxLevel, k, v)
    requires ShapeOf(h', levels', maxLevel) && Raised(h[v + 1 := node], levels, h', levels', v + 1, node.top + 1)
    ensures ValidOf(h', levels', maxLevel, cells[v := val], m[k := val], retired, v + 2)
  {
    hide Represents, Owned, Raised;
    InsertMeansOwned(h, levels, cells, m, retired, v, k, val, node, h', levels');
    InsertTidy(h, levels, node, h', levels', v + 1);
  }

  lemma InsertTidy(h: Heap, levels: Levels, node: Node, h': Heap, levels': Levels, n: Ptr)
    requires |levels| > 0 && Tidy(h, levels) && n !in h
    requires Raised(h[n := node], levels, h', levels', n, node.top + 1)
    requires |node.next| == node.top + 1 && node.marked == seq(node.top + 1, _ => false)
    ensures Tidy(h', levels')
  {
    TidyBefore(h, levels, h[n := node], n);
    RaisedTidy(h[n := node], levels, h', levels', n);
  }

  lemma InsertMeansOwned(h: Heap, levels: Levels, cells: Cells, m: map<Key, Value>, retired: seq<Garbage>,
                         v: Ptr, k: Key, val: Value, node: Node, h': Heap, levels': Levels)
    requires |levels| > 0 && Represents(h, levels[0], cells, m) && Owned(h, levels[0], cells, retired, v) && k !in m
    requires TAIL < v && (forall p :: p in levels[0] ==> On(h, p, 0)) && Fresh(node, node.top, k, v)
    requires Raised(h[v + 1 := node], levels, h', levels', v + 1, node.top + 1)
    ensures Represents(h', levels'[0], cells[v := val], m[k := val])
    ensures Owned(h', levels'[0], cells[v := val], retired, v + 2)
    ensures v + 1 !in h
  {
    var n, h1 := v + 1, h[v + 1 := node];
    assert n !in h && v !in cells;
    assert levels'[0] == levels[0] + {n};
    InsertOwned(h, levels[0], cells, retired, v, node, val);
    LinksMoveNothing(h1, levels[0] + {n}, h', cells[v := val], retired, v + 2);
    InsertMeans(h, levels[0], cells, m, h', n, k, v, val);
  }

  lemma OneLess<K, V>(m: map<K, V>, k: K)
    requires k in m
    ensures |m - {k}| == |m| - 1
  {
    assert (m - {k}).Keys == m.Keys - {k};
  }

  lemma OneMore<K, V>(m: map<K, V>, k: K, v: V)
    requires k !in m
    ensures |m[k := v]| == |m| + 1
  {
  }

  predicate Fresh(node: Node, maxLevel: nat, k: Key, v: Ptr) {
    && node.key == Fin(k) && node.value == v && node.top <= maxLevel
    && |node.next| == node.top + 1 && node.marked == seq(node.top + 1, _ => false)
  }

  lemma TidyBefore(h: Heap, levels: Levels, h1: Heap, n: Ptr)
    requires |levels| > 0 && Tidy(h, levels) && n !in h && n in h1 && h1 == h[n := h1[n]]
    ensures Tidy(h1, levels)
  {
    forall l, p | 0 <= l < |levels| && p in levels[l] ensures On(h1, p, l) && !h1[p].marked[l] { assert On(h, p, l); }
    forall l, p | 0 <= l < |levels| && p in levels[0] && On(h1, p, l) ensures p in levels[l] { assert On(h, p, 0); }
  }

  lemma FreshUnlinked(h: Heap, levels: Levels, maxLevel: nat, key: Key, n: Ptr, node: Node,
                      preds: seq<Ptr>, succs: seq<Ptr>)
    requires ShapeOf(h, levels, maxLevel) && n !in h && IsData(n) && |succs| == MAX_HEIGHT
    requires Brackets(h, levels, 0, maxLevel, Rank(key), preds, succs)
    requires Misses(h, maxLevel, key, succs)
    requires node.key == Fin(key) && node.top <= maxLevel && node.next == succs[..node.top + 1]
    requires node.marked == seq(node.top + 1, _ => false)
    ensures Unlinked(h[n := node], levels, maxLevel, key, n, preds, succs)
  {
    BracketsWithNode(h, levels, maxLevel, Rank(key), preds, succs, n, node);
    forall l | 0 <= l < MAX_HEIGHT ensures n !in levels[l] { assert LevelOk(h, levels[l], l); }
  }

  // A search for the key of a marked node leaves it on no level.
  lemma Unlinks(h: Heap, levels: Levels, maxLevel: nat, key: Key, n: Ptr, l: nat, preds: seq<Ptr>, succs: seq<Ptr>)
    requires ShapeOf(h, levels, maxLevel) && l < MAX_HEIGHT && IsData(n) && n in h && h[n].key == Fin(key)
    requires forall m :: 0 <= m < |h[n].marked| ==> h[n].marked[m]
    requires Brackets(h, levels, 0, maxLevel, Rank(key), preds, succs)
    ensures n !in levels[l]
  {
    if l <= maxLevel {
      assert Around(h, levels[l], l, Rank(key), preds[l], succs[l]);
      assert n in levels[l] ==> On(h, n, l);
      if n in levels[l] { NothingBetween(h, levels[l], l, Rank(key), preds[l], succs[l], n); }
    }
  }

  // What the marks, the second search and `retire` of a removal add up to.
  lemma RemoveValid(h: Heap, levels: Levels, maxLevel: nat, cells: Cells, m: map<Key, Value>, retired: seq<Garbage>,
                    brk: Ptr, n: Ptr, k: Key, h1: Heap, h': Heap, levels': Levels, preds: seq<Ptr>, succs: seq<Ptr>)
    requires ValidOf(h, levels, maxLevel, cells, m, retired, brk) && Holds(h, levels[0], n, k)
    requires MarkedFrom(h, h1, n, 0) && Cleaned(h1, levels, h', levels') && ShapeOf(h', levels', maxLevel)
    requires Brackets(h', levels', 0, maxLevel, Rank(k), preds, succs)
    ensures ValidOf(h', levels', maxLevel, cells, m - {k}, retired + [NodeGarbage(n)], brk)
    ensures Gone(levels, levels', n)
  {
    hide Represents, Owned;
    forall l | 0 <= l < MAX_HEIGHT ensures levels'[l] == levels[l] - {n} {
      Unlinks(h', levels', maxLevel, k, n, l, preds, succs);
      OthersStay(h, levels, h1, h', levels', n, l);
    }
    assert Represents(h', levels'[0], cells, m - {k}) by {
      MarkMeans(h, levels[0], cells, m, h1, n, k);
      CleanedRepresents(h1, levels, h', levels', cells, m - {k});
    }
    assert Owned(h', levels'[0], cells, retired + [NodeGarbage(n)], brk) by {
      LinksMoveNothing(h, levels[0], h', cells, retired, brk);
      RetireOwned(h', levels[0], cells, retired, brk, n);
    }
    RemoveTidy(h, levels, h1, h', levels', n);
  }

  // The node has left every level, and nothing else has.
  ghost predicate Gone(levels: Levels, levels': Levels, n: Ptr) {
    |levels'| == |levels| && forall l :: 0 <= l < |levels| ==> levels'[l] == levels[l] - {n}
  }

  lemma OthersStay(h: Heap, levels: Levels, h1: Heap, h': Heap, levels': Levels, n: Ptr, l: nat)
    requires Tidy(h, levels) && MarkedFrom(h, h1, n, 0) && Cleaned(h1, levels, h', levels') && l < |levels|
    requires n !in levels'[l]
    ensures levels'[l] == levels[l] - {n}
  {
    forall p | p in levels[l] && p != n ensures p in levels'[l] { assert On(h, p, l) && On(h1, p, l); }
  }

  lemma RemoveTidy(h: Heap, levels: Levels, h1: Heap, h': Heap, levels': Levels, n: Ptr)
    requires |levels| > 0 && Tidy(h, levels) && MarkedFrom(h, h1, n, 0) && Cleaned(h1, levels, h', levels')
    requires forall l :: 0 <= l < |levels| ==> levels'[l] == levels[l] - {n}
    ensures Tidy(h', levels')
  {
    forall l, p | 0 <= l < |levels'| && p in levels'[l] ensures On(h', p, l) && !h'[p].marked[l] {
      assert p in levels[l] && On(h, p, l);
    }
    forall l, p | 0 <= l < |levels'| && p in levels'[0] && On(h', p, l) ensures p in levels'[l] {
      assert p in levels[0] && On(h, p, l);
    }
  }

  // The node under construction can be linked at level `l`.
  ghost predicate Linkable(h: Heap, levels: Levels, maxLevel: nat, key: Key, l: nat, node: Ptr,
                           preds: seq<Ptr>, succs: seq<Ptr>)
  {
    && l <= maxLevel && On(h, node, l) && IsData(node) && h[node].key == Fin(key)
    && Brackets(h, levels, l, maxLevel, Rank(key), preds, succs)
    && node !in levels[l] && h[node].next[l] == succs[l] && RankOf(h, succs[l]) != Rank(key)
    && (l > 0 ==> node in levels[l - 1] && !h[node].marked[l - 1])
  }

  // A fresh node, unmarked, pre-pointed at the successors, and on no level.
  ghost predicate Unlinked(h: Heap, levels: Levels, maxLevel: nat, key: Key, node: Ptr,
                           preds: seq<Ptr>, succs: seq<Ptr>)
  {
    && |levels| == |succs| == MAX_HEIGHT && maxLevel < MAX_HEIGHT
    && node in h && IsData(node) && h[node].key == Fin(key) && h[node].top <= maxLevel
    && h[node].next == succs[..h[node].top + 1] && h[node].marked == seq(h[node].top + 1, _ => false)
    && Brackets(h, levels, 0, maxLevel, Rank(key), preds, succs)
    && (forall l :: 0 <= l < MAX_HEIGHT ==> node !in levels[l])
    && Misses(h, maxLevel, key, succs)
  }

  lemma NotLinked(h: Heap, levels: Levels, maxLevel: nat, key: Key, node: Ptr, preds: seq<Ptr>, succs: seq<Ptr>)
    requires Unlinked(h, levels, maxLevel, key, node, preds, succs)
    ensures node in h && h[node].key == Fin(key) && forall l :: 0 <= l < |levels| ==> node !in levels[l]
  {
  }

  lemma LinkableNow(h0: Heap, v0: Levels, h: Heap, v: Levels, maxLevel: nat, key: Key, node: Ptr, l: nat,
                    preds: seq<Ptr>, succs: seq<Ptr>)
    requires Unlinked(h0, v0, maxLevel, key, node, preds, succs) && Raised(h0, v0, h, v, node, l) && l <= h0[node].top
    requires Brackets(h, v, l, maxLevel, Rank(key), preds, succs)
    ensures Linkable(h, v, maxLevel, key, l, node, preds, succs)
    ensures SetNext(h, node, l, succs[l]) == h && On(h, preds[l], l) && preds[l] != node
  {
    assert Around(h, v[l], l, Rank(key), preds[l], succs[l]);
    assert h[node].next[l := succs[l]] == h[node].next;
  }

  function EmptyHeap(): Heap {
    map[HEAD := Node(NegInf, NULL, MAX_HEIGHT - 1, seq(MAX_HEIGHT, _ => TAIL), seq(MAX_HEIGHT, _ => false)),
        TAIL := Node(PosInf, NULL, MAX_HEIGHT - 1, seq(MAX_HEIGHT, _ => NULL), seq(MAX_HEIGHT, _ => false))]
  }

  lemma EmptyOk()
    ensures var levels := seq(MAX_HEIGHT, _ => {HEAD, TAIL});
            WellFormed(EmptyHeap(), levels) && Tidy(EmptyHeap(), levels)
  {
    var h := EmptyHeap();
    var levels := seq(MAX_HEIGHT, _ => {HEAD, TAIL});
    forall l | 0 <= l < MAX_HEIGHT ensures LevelOk(h, levels[l], l) {
      assert Leads(h, levels[l], l, HEAD);
      assert Ordered(h, l, HEAD, TAIL) && Ordered(h, l, TAIL, HEAD) && Ordered(h, l, HEAD, HEAD) &&
          Ordered(h, l, TAIL, TAIL);
    }
    forall l, p | 0 < l < MAX_HEIGHT && p in levels[l] ensures Tower(h, levels, l, p) {}
  }

  lemma AbsentEverywhere(h: Heap, levels: Levels, cells: Cells, m: map<Key, Value>, key: Key, l: nat, s: Ptr)
    requires WellFormed(h, levels) && Tidy(h, levels) && Represents(h, levels[0], cells, m) && key !in m
    requires l < MAX_HEIGHT && s in levels[l]
    ensures s in h && RankOf(h, s) != Rank(key)
  {
    DownToBottom(h, levels, l, s);
    CompareRanks(h[s].key, key);
    assert Holds(h, levels[0], s, key) ==> Live(h, levels[0], s);
  }

  // The part of the bottom chain from `p` on.
  ghost function From(h: Heap, linked: set<Ptr>, p: Ptr): set<Ptr> {
    set q | q in linked && q in h && p in h && RankOf(h, p) <= RankOf(h, q)
  }

  lemma DropStarts(h: Heap, levels: Levels, maxLevel: nat, cells: Cells, m: map<Key, Value>,
                   retired: seq<Garbage>, brk: Ptr)
    requires ValidOf(h, levels, maxLevel, cells, m, retired, brk)
    ensures WellFormed(h, levels) && |levels| == MAX_HEIGHT && HEAD in levels[0]
    ensures Owned(h, From(h, levels[0], HEAD), cells, retired, brk)
    ensures From(h, levels[0], HEAD) <= h.Keys && NULL !in h
  {
    assert LevelOk(h, levels[0], 0);
    assert From(h, levels[0], HEAD) == levels[0];
  }

  // The nodes still owned by the chain are as they were.
  ghost predicate Kept(h0: Heap, left: set<Ptr>, h: Heap) {
    forall p :: p in left ==> p in h0 && p in h && h[p] == h0[p]
  }

  lemma KeptAtFirst(h: Heap, left: set<Ptr>)
    requires left <= h.Keys
    ensures Kept(h, left, h)
  {
  }

  lemma KeptLess(h0: Heap, left: set<Ptr>, h: Heap, p: Ptr)
    requires Kept(h0, left, h) && p in left
    ensures p in h && p in h0 && h[p] == h0[p] && Kept(h0, left - {p}, h - {p}) && |left - {p}| < |left|
    ensures On(h0, p, 0) ==> |h[p].next| > 0
  {
  }

  // The walk drops one node of the chain at a time and ends at the null link of tail.
  lemma OneOff(h: Heap, levels: Levels, p: Ptr)
    requires WellFormed(h, levels) && p in levels[0] && NULL !in h
    ensures p in h && On(h, p, 0) && p in From(h, levels[0], p)
    ensures p == TAIL ==> h[p].next[0] == NULL && From(h, levels[0], p) - {p} == {}
    ensures p != TAIL ==>
      && h[p].next[0] in levels[0] && h[p].next[0] != NULL
      && From(h, levels[0], p) - {p} == From(h, levels[0], h[p].next[0])
      && |From(h, levels[0], h[p].next[0])| < |From(h, levels[0], p)|
  {
    if p == TAIL {
      forall q | q in levels[0] ensures q == TAIL || RankOf(h, q) < RankOf(h, TAIL) { assert Ordered(h, 0, q, TAIL); }
    } else {
      SkipNothing(h, levels[0], 0, p);
      assert From(h, levels[0], p) - {p} == From(h, levels[0], h[p].next[0]);
      assert From(h, levels[0], p) == (From(h, levels[0], p) - {p}) + {p};
    }
  }

  // Nodes of `linked` still ahead of `p`: what a walk from `p` has left to do.
  ghost function Beyond(h: Heap, linked: set<Ptr>, p: Ptr): set<Ptr> {
    set q | q in linked && q in h && p in h && RankOf(h, p) < RankOf(h, q)
  }

  lemma BeyondShrinks(h: Heap, linked: set<Ptr>, p: Ptr, c: Ptr)
    requires p in h && c in h && c in linked && RankOf(h, p) < RankOf(h, c)
    ensures |Beyond(h, linked, c)| < |Beyond(h, linked, p)|
  {
    assert c in Beyond(h, linked, p) && c !in Beyond(h, linked, c);
    ProperSubset(Beyond(h, linked, c), Beyond(h, linked, p));
  }

  lemma ProperSubset<T>(a: set<T>, b: set<T>)
    requires a < b
    ensures |a| < |b|
  {
    assert b == a + (b - a);
  }

  // ---------------------------------------------------------------------------
  // The list
  // ---------------------------------------------------------------------------

  class SkipList {
    var heap: Heap
    var cells: Cells
    var len: nat
    var brk: Ptr                   // the next unused name
    var retired: seq<Garbage>
    const maxLevel: nat
    ghost var levels: Levels
    ghost var contents: map<Key, Value>

    // Any well-formed state, with any nodes marked.
    ghost predicate Shape()
      reads this
    {
      ShapeOf(heap, levels, maxLevel)
    }

    ghost predicate Sound()
      reads this
    {
      Shape() && Represents(heap, levels[0], cells, contents)
    }

    // `compare_exchange` on a link.
    method Cas(p: Ptr, l: nat, expected: Ptr, new_: Ptr) returns (ok: bool)
      requires On(heap, p, l)
      modifies this`heap
      ensures ok == old(heap[p].next[l] == expected && !heap[p].marked[l])
      ensures heap == if ok then SetNext(old(heap), p, l, new_) else old(heap)
    {
      ok := heap[p].next[l] == expected && !heap[p].marked[l];
      if ok { heap := SetNext(heap, p, l, new_); }
    }

    // A search at level `l` stands on `p`.
    ghost predicate Standing(key: Key, l: nat, p: Ptr)
      reads this
    {
      && Shape() && l <= maxLevel && p in levels[l] && p != TAIL && On(heap, p, l)
      && !heap[p].marked[l] && RankOf(heap, p) < Rank(key)
    }

    // Unlink one marked node after `pred`.
    method Splice(ghost key: Key, l: nat, pred: Ptr, curr: Ptr, succ: Ptr)
      requires Standing(key, l, pred) && heap[pred].next[l] == curr
      requires On(heap, curr, l) && heap[curr].marked[l] && heap[curr].next[l] == succ
      modifies this`heap, this`levels
      ensures Standing(key, l, pred) && heap[pred].next[l] == succ && On(heap, succ, l)
      ensures CleanedAt(old(heap), old(levels), heap, levels, l)
      ensures |Beyond(heap, levels[l], pred)| < |old(Beyond(heap, levels[l], pred))|
    {
      assert Leads(heap, levels[l], l, pred);
      SpliceKeeps(heap, levels, l, pred, curr);
      var ok := Cas(pred, l, curr, succ);
      assert ok;    // alone, the exchange never fails and the search never restarts
      levels := levels[l := levels[l] - {curr}];
      SpliceShrinks(old(heap), old(levels)[l], heap, levels[l], pred, curr);
      assert Leads(heap, levels[l], l, pred);
    }

    // The inner loop of `find`: splice out a run of marked successors.
    method SkipMarked(ghost key: Key, l: nat, pred: Ptr, from: Ptr) returns (curr: Ptr, succ: Ptr)
      requires Standing(key, l, pred) && heap[pred].next[l] == from
      modifies this`heap, this`levels
      ensures Standing(key, l, pred) && heap[pred].next[l] == curr
      ensures On(heap, curr, l) && !heap[curr].marked[l] && heap[curr].next[l] == succ
      ensures CleanedAt(old(heap), old(levels), heap, levels, l)
      ensures |Beyond(heap, levels[l], pred)| <= |old(Beyond(heap, levels[l], pred))|
    {
      assert Leads(heap, levels[l], l, pred);
      curr := from;
      succ := heap[curr].next[l];
      var marked := heap[curr].marked[l];
      while marked
        invariant Standing(key, l, pred) && heap[pred].next[l] == curr
        invariant On(heap, curr, l) && succ == heap[curr].next[l] && marked == heap[curr].marked[l]
        invariant CleanedAt(old(heap), old(levels), heap, levels, l)
        invariant |Beyond(heap, levels[l], pred)| <= |old(Beyond(heap, levels[l], pred))|
        decreases |Beyond(heap, levels[l], pred)|
      {
        ghost var h0, v0 := heap, levels;
        Splice(key, l, pred, curr, succ);
        CleanedAtTrans(old(heap), old(levels), h0, v0, heap, levels, l);
        curr := succ;
        succ, marked := heap[curr].next[l], heap[curr].marked[l];
      }
    }

    // One level of `find`: stop at the neighbours of `key`.
    method FindLevel(key: Key, l: nat, start: Ptr) returns (pred: Ptr, curr: Ptr)
      requires Standing(key, l, start)
      modifies this`heap, this`levels
      ensures Standing(key, l, pred) && Around(heap, levels[l], l, Rank(key), pred, curr)
      ensures CleanedAt(old(heap), old(levels), heap, levels, l)
    {
      pred := start;
      curr := heap[pred].next[l];
      while true
        invariant Standing(key, l, pred) && heap[pred].next[l] == curr
        invariant CleanedAt(old(heap), old(levels), heap, levels, l)
        decreases |Beyond(heap, levels[l], pred)|
      {
        ghost var h0, v0 := heap, levels;
        var succ;
        curr, succ := SkipMarked(key, l, pred, curr);
        CleanedAtTrans(old(heap), old(levels), h0, v0, heap, levels, l);
        assert Leads(heap, levels[l], l, pred);
        CompareRanks(heap[curr].key, key);
        if !KeyLt(heap[curr].key, key) { break; }
        BeyondShrinks(heap, levels[l], pred, curr);
        pred, curr := curr, succ;
      }
    }

    // The search: unlink what is marked on the way, return the neighbours of
    // `key` at every level, and whether the bottom level has the key.
    method Find(key: Key) returns (found: bool, preds: seq<Ptr>, succs: seq<Ptr>)
      requires Shape()
      modifies this`heap, this`levels
      ensures Shape() && Cleaned(old(heap), old(levels), heap, levels)
      ensures |preds| == |succs| == MAX_HEIGHT
      ensures Brackets(heap, levels, 0, maxLevel, Rank(key), preds, succs)
      ensures First(heap, levels[0], Rank(key), succs[0]) && found == KeyEq(heap[succs[0]].key, key)
    {
      hide KeyEq;
      preds, succs := seq(MAX_HEIGHT, _ => NULL), seq(MAX_HEIGHT, _ => NULL);
      var pred := HEAD;
      var level := maxLevel + 1;
      CleanedRefl(heap, levels);
      while level > 0
        invariant 0 <= level <= maxLevel + 1 && |preds| == |succs| == MAX_HEIGHT
        invariant Shape() && Cleaned(old(heap), old(levels), heap, levels)
        invariant level > 0 ==> Standing(key, level - 1, pred)
        invariant Brackets(heap, levels, level, maxLevel, Rank(key), preds, succs)
      {
        level := level - 1;
        ghost var h0, v0 := heap, levels;
        var curr;
        pred, curr := FindLevel(key, level, pred);
        CleanedTrans(old(heap), old(levels), h0, v0, heap, levels);
        BracketsGrow(h0, v0, heap, levels, level, maxLevel, Rank(key), preds, succs, pred, curr);
        preds, succs := preds[level := pred], succs[level := curr];
        if level > 0 { assert Tower(heap, levels, level, pred); }
      }
      AroundIsFirst(heap, levels, Rank(key), preds[0], succs[0]);
      found := KeyEq(heap[succs[0]].key, key);
    }

    // ---------------------------------------------------------------------------
    // Insert
    // ---------------------------------------------------------------------------

    // Between operations of one thread.
    ghost predicate Valid()
      reads this
    {
      ValidOf(heap, levels, maxLevel, cells, contents, retired, brk) && len == |contents|
    }

    constructor (top: nat)
      requires top < MAX_HEIGHT
      ensures Valid() && maxLevel == top && contents == map[] && retired == [] && brk == TAIL + 1
    {
      maxLevel, len, brk, retired := top, 0, TAIL + 1, [];
      heap := EmptyHeap();
      cells, contents := map[], map[];
      levels := seq(MAX_HEIGHT, _ => {HEAD, TAIL});
      EmptyOk();
    }

    method Link(ghost key: Key, l: nat, node: Ptr, preds: seq<Ptr>, succs: seq<Ptr>)
      requires Shape() && Linkable(heap, levels, maxLevel, key, l, node, preds, succs)
      modifies this`heap, this`levels
      ensures Shape() && heap == SetNext(old(heap), preds[l], l, node)
      ensures levels == old(levels)[l := old(levels)[l] + {node}]
      ensures Brackets(heap, levels, l + 1, maxLevel, Rank(key), preds, succs)
    {
      assert Around(heap, levels[l], l, Rank(key), preds[l], succs[l]);
      LinkKeeps(heap, levels, l, preds[l], node);
      BracketsAfterLink(heap, levels, l, maxLevel, Rank(key), preds, succs, node);
      var ok := Cas(preds[l], l, succs[l], node);
      assert ok;    // alone, publishing never loses a race
      levels := levels[l := levels[l] + {node}];
    }

    // A search between operations: there is nothing to clean.
    method Search(key: Key) returns (found: bool, preds: seq<Ptr>, succs: seq<Ptr>)
      requires Valid()
      modifies this`heap, this`levels
      ensures Valid() && levels == old(levels) && heap.Keys == old(heap.Keys) && |succs| == MAX_HEIGHT
      ensures forall p, k :: Holds(heap, levels[0], p, k) <==> old(Holds(heap, levels[0], p, k))
      ensures Brackets(heap, levels, 0, maxLevel, Rank(key), preds, succs)
      ensures found == (key in contents) && (found ==> Holds(heap, levels[0], succs[0], key))
      ensures !found ==> Misses(heap, maxLevel, key, succs)
    {
      hide ValidOf, Cleaned, Brackets, First, ShapeOf, Misses;
      ValidParts(heap, levels, maxLevel, cells, contents, retired, brk);
      found, preds, succs := Find(key);
      CleanedSizes(old(heap), old(levels), heap, levels);
      CleanedValid(old(heap), old(levels), maxLevel, cells, contents, retired, brk, heap, levels);
      SearchMeans(heap, levels, maxLevel, cells, contents, retired, brk, key, preds, succs);
    }

    // Update path: swap in a new value cell, retire the old one.
    method Update(ghost key: Key, val: Value, node: Ptr)
      requires Valid() && Holds(heap, levels[0], node, key)
      modifies this`heap, this`cells, this`brk, this`retired, this`contents
      ensures Valid() && contents == old(contents)[key := val]
      ensures retired == old(retired) + [CellGarbage(old(heap[node].value))]
    {
      hide ValidOf;
      UpdateValid(heap, levels, maxLevel, cells, contents, retired, brk, node, key, val);
      var newv := brk;
      brk := brk + 1;
      cells := cells[newv := val];
      var oldv := heap[node].value;
      heap := heap[node := heap[node].(value := newv)];
      retired := retired + [CellGarbage(oldv)];
      contents := contents[key := val];
    }

    // A new node, pre-pointed at the successors found, not linked anywhere yet.
    method NewNode(key: Key, valrec: Ptr, topLevel: nat, ghost preds: seq<Ptr>, succs: seq<Ptr>)
      returns (node: Ptr, ghost n: Node)
      requires Shape() && topLevel <= maxLevel && |succs| == MAX_HEIGHT && TAIL < brk && brk !in heap
      requires Brackets(heap, levels, 0, maxLevel, Rank(key), preds, succs)
      requires Misses(heap, maxLevel, key, succs)
      modifies this`heap, this`brk
      ensures Shape() && node == old(brk) && brk == old(brk) + 1
      ensures heap == old(heap)[node := n] && n.top == topLevel && Fresh(n, maxLevel, key, valrec)
      ensures Unlinked(heap, levels, maxLevel, key, node, preds, succs)
    {
      node := brk;
      brk := brk + 1;
      var links := seq(topLevel + 1, _ => NULL);
      for level := 0 to topLevel + 1
        invariant |links| == topLevel + 1 && links[..level] == succs[..level]
      {
        links := links[level := succs[level]];
      }
      assert links == succs[..topLevel + 1];
      n := Node(Fin(key), valrec, topLevel, links, seq(topLevel + 1, _ => false));
      QuietKeeps(heap, levels, node, n);
      FreshUnlinked(heap, levels, maxLevel, key, node, n, preds, succs);
      heap := heap[node := Node(Fin(key), valrec, topLevel, links, seq(topLevel + 1, _ => false))];
    }

    // Publish at the bottom level, then link the upper levels.
    method LinkTower(key: Key, node: Ptr, preds: seq<Ptr>, succs: seq<Ptr>)
      requires Unlinked(heap, levels, maxLevel, key, node, preds, succs) && Shape()
      modifies this`heap, this`levels
      ensures Shape() && Raised(old(heap), old(levels), heap, levels, node, old(heap[node].top) + 1)
    {
      var top := heap[node].top;
      for level := 0 to top + 1
        invariant Shape() && Raised(old(heap), old(levels), heap, levels, node, level)
        invariant Brackets(heap, levels, level, maxLevel, Rank(key), preds, succs)
      {
        LinkableNow(old(heap), old(levels), heap, levels, maxLevel, key, node, level, preds, succs);
        if level > 0 { heap := SetNext(heap, node, level, succs[level]); }  // stores the same link again
        RaisedStep(old(heap), old(levels), heap, levels, node, level, preds[level]);
        Link(key, level, node, preds, succs);
      }
    }

    // Insert path: a new node with its own value cell.
    method InsertNew(key: Key, val: Value, topLevel: nat, preds: seq<Ptr>, succs: seq<Ptr>)
      requires Valid() && key !in contents && topLevel <= maxLevel && |succs| == MAX_HEIGHT
      requires Brackets(heap, levels, 0, maxLevel, Rank(key), preds, succs)
      requires Misses(heap, maxLevel, key, succs)
      modifies this`heap, this`levels, this`cells, this`brk, this`len, this`contents
      ensures Valid() && contents == old(contents)[key := val]
      ensures exists n :: Tall(heap, levels, n, key, topLevel)
    {
      hide ValidOf, ShapeOf, Raised, Unlinked, Brackets, Fresh, Misses, Tall;
      ValidParts(heap, levels, maxLevel, cells, contents, retired, brk);
      var valrec := brk;
      brk := brk + 1;
      cells := cells[valrec := val];
      var node, n := NewNode(key, valrec, topLevel, preds, succs);
      NotLinked(heap, levels, maxLevel, key, node, preds, succs);
      ghost var h1 := heap;
      LinkTower(key, node, preds, succs);
      RaisedIsTall(h1, old(levels), heap, levels, node, key, topLevel);
      InsertValid(old(heap), old(levels), maxLevel, old(cells), contents, retired, valrec, key, val, n, heap, levels);
      OneMore(contents, key, val);
      contents := contents[key := val];
      len := len + 1;
    }

    // Insert or update.  True if a new node was created.
    method Insert(key: Key, val: Value, topLevel: nat) returns (created: bool)
      requires Valid() && topLevel <= maxLevel
      modifies this
      ensures Valid() && contents == old(contents)[key := val] && created == (key !in old(contents))
      ensures created ==> exists n :: Tall(heap, levels, n, key, topLevel)
    {
      hide ValidOf, Brackets, Misses, Tall;
      var found, preds, succs := Search(key);
      if found {
        Update(key, val, succs[0]);
        return false;
      }
      InsertNew(key, val, topLevel, preds, succs);
      return true;
    }

    // ---------------------------------------------------------------------------
    // Remove
    // ---------------------------------------------------------------------------

    // Compare-and-swap that sets the mark and keeps the reference.
    method AttemptMark(p: Ptr, l: nat, expected: Ptr) returns (ok: bool)
      requires On(heap, p, l)
      modifies this`heap
      ensures ok == old(heap[p].next[l] == expected && !heap[p].marked[l])
      ensures heap == if ok then SetMark(old(heap), p, l) else old(heap)
    {
      ok := heap[p].next[l] == expected && !heap[p].marked[l];
      if ok { heap := SetMark(heap, p, l); }
    }

    // Set the mark of one upper level, retrying until it is set.
    method MarkLevel(node: Ptr, l: nat)
      requires Shape() && On(heap, node, l) && IsData(node) && (l < heap[node].top ==> heap[node].marked[l + 1])
      modifies this`heap
      ensures Shape() && heap == SetMark(old(heap), node, l)
    {
      hide ShapeOf;
      var succ, marked := heap[node].next[l], heap[node].marked[l];
      MarkShape(heap, levels, maxLevel, node, l);
      while !marked
        invariant Shape() && On(heap, node, l)
        invariant succ == heap[node].next[l] && marked == heap[node].marked[l]
        invariant heap == if marked then SetMark(old(heap), node, l) else old(heap)
        decreases !marked
      {
        var _ := AttemptMark(node, l, succ);
        succ, marked := heap[node].next[l], heap[node].marked[l];
      }
    }

    // Mark every level of a node, top-down, the bottom one last.
    method MarkAll(node: Ptr)
      requires Shape() && node in heap && IsData(node) && !heap[node].marked[0]
      modifies this`heap
      ensures Shape() && MarkedFrom(old(heap), heap, node, 0)
    {
      var level := heap[node].top;
      while level >= 1
        invariant 0 <= level && Shape() && MarkedFrom(old(heap), heap, node, level + 1) && level <= heap[node].top
      {
        MarkStep(old(heap), heap, node, level);
        MarkLevel(node, level);
        level := level - 1;
      }
      MarkStep(old(heap), heap, node, 0);
      MarkShape(heap, levels, maxLevel, node, 0);
      var succ := heap[node].next[0];
      var iMarked := AttemptMark(node, 0, succ);
      assert iMarked;    // alone, nobody else can win the bottom mark
    }

    // After winning the bottom mark: unlink by searching again, count, retire.
    method Finish(key: Key, node: Ptr, ghost h0: Heap)
      requires ValidOf(h0, levels, maxLevel, cells, contents, retired, brk) && Holds(h0, levels[0], node, key)
      requires Shape() && MarkedFrom(h0, heap, node, 0) && key in contents && len == |contents|
      modifies this`heap, this`levels, this`len, this`retired, this`contents
      ensures Valid() && contents == old(contents) - {key} && retired == old(retired) + [NodeGarbage(node)]
      ensures Gone(old(levels), levels, node)
    {
      hide ValidOf, Cleaned, Brackets, First, ShapeOf, MarkedFrom, Gone, Holds;
      var _, preds, succs := Find(key);
      RemoveValid(h0, old(levels), maxLevel, cells, contents, retired, brk, node, key, old(heap), heap, levels, preds,
          succs);
      OneLess(contents, key);
      contents := contents - {key};
      len := len - 1;
      retired := retired + [NodeGarbage(node)];
    }

    // Remove a key.  True if it was there.
    method Remove(key: Key) returns (removed: bool)
      requires Valid()
      modifies this`heap, this`levels, this`len, this`retired, this`contents
      ensures Valid() && contents == old(contents) - {key} && removed == (key in old(contents))
      ensures !removed ==> levels == old(levels) && retired == old(retired)
      ensures removed ==> exists n :: old(Holds(heap, levels[0], n, key)) && Gone(old(levels), levels, n)
                                      && retired == old(retired) + [NodeGarbage(n)]
    {
      hide ValidOf, Brackets, ShapeOf, Misses, MarkedFrom, Gone;
      var found, preds, succs := Search(key);
      if !found { return false; }
      var node := succs[0];
      ghost var h0 := heap;
      ValidParts(heap, levels, maxLevel, cells, contents, retired, brk);
      MarkAll(node);
      Finish(key, node, h0);
      return true;
    }

    // ---------------------------------------------------------------------------
    // Teardown
    // ---------------------------------------------------------------------------

    // Free a node and the value cell it owns.  Both must still be live.
    method FreeNode(p: Ptr)
      requires p in heap && (heap[p].value != NULL ==> heap[p].value in cells)
      modifies this`heap, this`cells
      ensures heap == old(heap) - {p}
      ensures cells == if old(heap[p].value) == NULL then old(cells) else old(cells) - {old(heap[p].value)}
    {
      var v := heap[p].value;
      if v != NULL { cells := cells - {v}; }
      heap := heap - {p};
    }

    // `Drop`: walk the bottom level and free every node, the sentinels included.
    method TearDown()
      requires Valid()
      modifies this`heap, this`cells
      ensures Owned(heap, {}, cells, retired, brk)
    {
      hide ValidOf, Owned, WellFormed, From, Kept, On;
      ghost var h0 := heap;
      var cur := HEAD;
      DropStarts(heap, levels, maxLevel, cells, contents, retired, brk);
      ghost var left := From(h0, levels[0], HEAD);
      KeptAtFirst(h0, left);
      while cur != NULL
        invariant cur != NULL ==> cur in levels[0] && left == From(h0, levels[0], cur)
        invariant cur == NULL ==> left == {}
        invariant Owned(heap, left, cells, retired, brk) && Kept(h0, left, heap)
        decreases |left|
      {
        OneOff(h0, levels, cur);
        KeptLess(h0, left, heap, cur);
        FreeLinked(heap, left, cells, retired, brk, cur);
        var next := heap[cur].next[0];
        FreeNode(cur);
        cur, left := next, left - {cur};
      }
    }

    // Deferred reclamation: free what was retired.  Afterwards nothing is left,
    // so every node and cell has been freed exactly once.
    method Reclaim()
      requires Owned(heap, {}, cells, retired, brk)
      modifies this`heap, this`cells, this`retired
      ensures heap == map[] && cells == map[] && retired == []
    {
      hide Owned;
      while retired != []
        invariant Owned(heap, {}, cells, retired, brk)
        decreases |retired|
      {
        match retired[0] {
          case NodeGarbage(p) =>
            FreeRetiredNode(heap, cells, retired, brk, p);
            FreeNode(p);
          case CellGarbage(v) =>
            FreeRetiredCell(heap, cells, retired, brk, v);
            cells := cells - {v};
        }
        retired := retired[1..];
      }
      NothingOwned(heap, cells, brk);
    }

    // ---------------------------------------------------------------------------
    // Lookup
    // ---------------------------------------------------------------------------

    // Everything of level `l` between `p` and `c` is marked.
    ghost predicate Skipped(l: nat, p: Ptr, c: Ptr)
      reads this
    {
      && l < |levels| && p in heap && c in heap
      && forall q :: q in levels[l] && On(heap, q, l) && RankOf(heap, p) < RankOf(heap, q) < RankOf(heap, c) ==>
           heap[q].marked[l]
    }

    // One level of `get`: like `find`, but step over marked nodes instead of
    // unlinking them.
    method WalkLevel(key: Key, l: nat, start: Ptr) returns (pred: Ptr, curr: Ptr)
      requires Standing(key, l, start)
      ensures Standing(key, l, pred) && curr in levels[l] && On(heap, curr, l) && !heap[curr].marked[l]
      ensures Rank(key) <= RankOf(heap, curr) && Skipped(l, pred, curr)
    {
      pred := start;
      curr := heap[pred].next[l];
      assert Leads(heap, levels[l], l, pred);
      SkipNothing(heap, levels[l], l, pred);
      while true
        invariant Standing(key, l, pred) && curr in levels[l] && On(heap, curr, l) && Skipped(l, pred, curr)
        invariant RankOf(heap, pred) < RankOf(heap, curr)
        decreases |Beyond(heap, levels[l], pred)|
      {
        var succ, marked := heap[curr].next[l], heap[curr].marked[l];
        while marked
          invariant curr in levels[l] && On(heap, curr, l) && Skipped(l, pred, curr)
          invariant succ == heap[curr].next[l] && marked == heap[curr].marked[l]
          invariant RankOf(heap, pred) < RankOf(heap, curr)
          decreases |Beyond(heap, levels[l], curr)|
        {
          assert curr != TAIL && Leads(heap, levels[l], l, curr);
          BeyondShrinks(heap, levels[l], curr, succ);
          SkipNothing(heap, levels[l], l, curr);
          curr := succ;
          succ, marked := heap[curr].next[l], heap[curr].marked[l];
        }
        CompareRanks(heap[curr].key, key);
        if !KeyLt(heap[curr].key, key) { break; }
        assert curr != TAIL && Leads(heap, levels[l], l, curr);
        SkipNothing(heap, levels[l], l, curr);
        BeyondShrinks(heap, levels[l], pred, curr);
        pred, curr := curr, succ;
      }
    }

    // The bottom node `get` arrives at: the one `find` would return.
    method Descend(key: Key) returns (node: Ptr)
      requires Shape()
      ensures First(heap, levels[0], Rank(key), node)
    {
      var pred := HEAD;
      var level := maxLevel + 1;
      node := TAIL;
      while level > 0
        invariant 0 <= level <= maxLevel + 1
        invariant level > 0 ==> Standing(key, level - 1, pred)
        invariant level == 0 ==> First(heap, levels[0], Rank(key), node)
      {
        level := level - 1;
        pred, node := WalkLevel(key, level, pred);
        if level > 0 { assert Tower(heap, levels, level, pred); }
      }
    }

    // In any well-formed state the lookup that skips marked nodes and the search
    // that unlinks them arrive at the same bottom node, and the search leaves
    // the entries alone.
    method LookThenFind(key: Key) returns (seen: Ptr, found: Ptr)
      requires Sound()
      modifies this`heap, this`levels
      ensures Sound() && seen == found
    {
      hide WellFormed, Cleaned, Brackets, First, Represents;
      SomeLevel(heap, levels);
      seen := Descend(key);
      var _, _, succs := Find(key);
      found := succs[0];
      CleanedSizes(old(heap), old(levels), heap, levels);
      FirstKept(old(heap), old(levels), heap, levels, Rank(key), seen);
      FirstUnique(heap, levels[0], Rank(key), seen, found);
      CleanedRepresents(old(heap), old(levels), heap, levels, cells, contents);
    }

    method Get(key: Key) returns (r: Option<Value>)
      requires Sound()
      ensures r == if key in contents then Some(contents[key]) else None
    {
      var curr := Descend(key);
      FirstDecides(heap, levels, cells, contents, key, curr);
      if KeyEq(heap[curr].key, key) {
        if heap[curr].marked[0] { return None; }
        return Some(cells[heap[curr].value]);
      }
      return None;
    }
  }

  lemma SkipNothing(h: Heap, linked: set<Ptr>, l: nat, p: Ptr)
    requires LevelOk(h, linked, l) && p in linked && p != TAIL
    ensures Leads(h, linked, l, p)
    ensures forall q :: q in linked && RankOf(h, p) < RankOf(h, q) ==> RankOf(h, h[p].next[l]) <= RankOf(h, q)
    ensures forall q :: q in linked && RankOf(h, p) == RankOf(h, q) ==> p == q
  {
    assert Leads(h, linked, l, p);
    forall q | q in linked
      ensures RankOf(h, p) < RankOf(h, q) ==> RankOf(h, h[p].next[l]) <= RankOf(h, q)
      ensures RankOf(h, p) == RankOf(h, q) ==> p == q
    {
      assert Ordered(h, l, p, q);
    }
  }

  lemma SpliceShrinks(h: Heap, linked: set<Ptr>, h': Heap, linked': set<Ptr>, p: Ptr, c: Ptr)
    requires p in h && c in h && c in linked && linked' == linked - {c} && RankOf(h, p) < RankOf(h, c)
    requires h'.Keys == h.Keys && forall q :: q in h ==> h'[q].key == h[q].key
    ensures |Beyond(h', linked', p)| < |Beyond(h, linked, p)|
  {
    assert c in Beyond(h, linked, p) && c !in Beyond(h', linked', p);
    ProperSubset(Beyond(h', linked', p), Beyond(h, linked, p));
  }

  // ---------------------------------------------------------------------------
  // Every level is a subsequence of the bottom chain
  // ---------------------------------------------------------------------------

  lemma NextIsCloser(h: Heap, linked: set<Ptr>, l: nat, p: Ptr)
    requires LevelOk(h, linked, l) && p in linked && p != TAIL
    ensures On(h, p, l) && h[p].next[l] in linked
    ensures |From(h, linked, h[p].next[l])| < |From(h, linked, p)|
  {
    SkipNothing(h, linked, l, p);
    assert p in From(h, linked, p) && p !in From(h, linked, h[p].next[l]);
    ProperSubset(From(h, linked, h[p].next[l]), From(h, linked, p));
  }

  // The nodes visited by following the links of level `l` from `p` to tail.
  ghost function Walk(h: Heap, linked: set<Ptr>, l: nat, p: Ptr): seq<Ptr>
    requires LevelOk(h, linked, l) && p in linked
    decreases |From(h, linked, p)|
  {
    if p == TAIL then [TAIL]
    else
      NextIsCloser(h, linked, l, p);
      [p] + Walk(h, linked, l, h[p].next[l])
  }

  function Taller(h: Heap, c: seq<Ptr>, l: nat): seq<Ptr> {
    if c == [] then [] else if On(h, c[0], l) then [c[0]] + Taller(h, c[1..], l) else Taller(h, c[1..], l)
  }

  lemma {:induction false} WalkFilters(h: Heap, levels: Levels, l: nat, p: Ptr, q: Ptr)
    requires WellFormed(h, levels) && Tidy(h, levels) && l < MAX_HEIGHT
    requires p in levels[0] && q in levels[l] && p in h && q in h && RankOf(h, p) <= RankOf(h, q)
    requires forall r :: r in levels[l] && r in h && RankOf(h, p) <= RankOf(h, r) ==> RankOf(h, q) <= RankOf(h, r)
    ensures Taller(h, Walk(h, levels[0], 0, p), l) == Walk(h, levels[l], l, q)
    decreases |From(h, levels[0], p)|
  {
    DownToBottom(h, levels, l, q);
    if p == TAIL {
      assert Ordered(h, 0, q, TAIL);
      assert Taller(h, [TAIL], l) == [TAIL];
    } else {
      SkipNothing(h, levels[0], 0, p);
      NextIsCloser(h, levels[0], 0, p);
      if p == q {
        SkipNothing(h, levels[l], l, p);
        DownToBottom(h, levels, l, h[p].next[l]);
        WalkFilters(h, levels, l, h[p].next[0], h[p].next[l]);
      } else {
        assert Ordered(h, 0, p, q);
        assert !On(h, p, l);
        WalkFilters(h, levels, l, h[p].next[0], q);
      }
    }
  }

  // Between operations, walking level `l` from head visits exactly the nodes of
  // the bottom walk whose tower reaches `l`, in the same order.
  lemma LevelsAreSubsequences(h: Heap, levels: Levels, l: nat)
    requires WellFormed(h, levels) && Tidy(h, levels) && l < MAX_HEIGHT
    ensures HEAD in levels[0] && HEAD in levels[l]
    ensures Taller(h, Walk(h, levels[0], 0, HEAD), l) == Walk(h, levels[l], l, HEAD)
  {
    assert LevelOk(h, levels[0], 0) && LevelOk(h, levels[l], l);
    WalkFilters(h, levels, l, HEAD, HEAD);
  }

  // ---------------------------------------------------------------------------
  // Whole runs refine a map
  // ---------------------------------------------------------------------------

  datatype Op = Put(key: Key, val: Value, top: nat) | Delete(key: Key) | Look(key: Key)
  datatype Answer = Flag(b: bool) | Found(o: Option<Value>)

  function Apply(m: map<Key, Value>, op: Op): map<Key, Value> {
    match op
    case Put(k, v, _) => m[k := v]
    case Delete(k) => m - {k}
    case Look(_) => m
  }

  function Reply(m: map<Key, Value>, op: Op): Answer {
    match op
    case Put(k, _, _) => Flag(k !in m)
    case Delete(k) => Flag(k in m)
    case Look(k) => Found(if k in m then Some(m[k]) else None)
  }

  function After(m: map<Key, Value>, ops: seq<Op>): map<Key, Value> {
    if ops == [] then m else Apply(After(m, ops[..|ops| - 1]), ops[|ops| - 1])
  }

  function Replies(m: map<Key, Value>, ops: seq<Op>): seq<Answer> {
    if ops == [] then []
    else Replies(m, ops[..|ops| - 1]) + [Reply(After(m, ops[..|ops| - 1]), ops[|ops| - 1])]
  }

  // For every sequence of operations and every choice of tower heights the list
  // answers like a map, and `len` is the size of the map.
  method Run(list: SkipList, ops: seq<Op>) returns (answers: seq<Answer>)
    requires list.Valid() && forall i :: 0 <= i < |ops| && ops[i].Put? ==> ops[i].top <= list.maxLevel
    modifies list
    ensures list.Valid() && list.contents == After(old(list.contents), ops) && list.len == |list.contents|
    ensures answers == Replies(old(list.contents), ops)
  {
    hide ValidOf;
    answers := [];
    for i := 0 to |ops|
      invariant list.Valid() && list.contents == After(old(list.contents), ops[..i])
      invariant answers == Replies(old(list.contents), ops[..i])
    {
      assert ops[..i + 1][..i] == ops[..i];
      match ops[i] {
        case Put(k, v, top) =>
          var b := list.Insert(k, v, top);
          answers := answers + [Flag(b)];
        case Delete(k) =>
          var b := list.Remove(k);
          answers := answers + [Flag(b)];
        case Look(k) =>
          ValidMeans(list.heap, list.levels, list.maxLevel, list.cells, list.contents, list.retired, list.brk);
          var o := list.Get(k);
          answers := answers + [Found(o)];
      }
    }
    assert ops[..|ops|] == ops;
  }
}
