/** An instant that explains every answer of the concurrent list.
  *
  * An operation that changes the map is explained by its own step.  There is one
  * subtlety: an insert that finds its key swaps the value even if the node has
  * been removed in between.  Such an insert, and a get that reads its value, took
  * effect right before the step that removed the node, which lies in their time.
  */
module BottomLinear {
  import opened BottomList
  import opened BottomSteps
  import opened BottomRuns

  // ---------------------------------------------------------------------------
  // Steps and instants of a run
  // ---------------------------------------------------------------------------

  datatype Deed = Published | Marked | Swapped(n: Ptr)

  predicate Does(g: Shared, th: Thread, a: Action, d: Deed) {
    match d
    case Published => Publishes(g, th, a)
    case Marked => Marks(g, th, a)
    case Swapped(n) => Swaps(th, a) && th.pc.node == n
  }

  // Step `m` of the run is thread `t`'s own, in an operation on `k` and `v`.
  ghost predicate Did(run: seq<State>, t: Tid, m: int, k: real, v: Value, d: Deed) {
    && 0 <= m < |run| - 1 && t in run[m].threads && run[m].threads[t].key == k && run[m].threads[t].val == v
    && exists a :: Next(run[m], t, a, run[m + 1]) && Does(run[m].g, run[m].threads[t], a, d)
  }

  ghost predicate Within(run: seq<State>, begin: nat, j: nat, i: nat) {
    begin <= j <= i < |run|
  }

  // The key was present (absent) at some instant between `begin` and `i`.
  ghost predicate WasIn(run: seq<State>, begin: nat, i: nat, k: real) {
    exists j: nat :: Within(run, begin, j, i) && k in Keys(run[j].g.nodes)
  }

  ghost predicate WasOut(run: seq<State>, begin: nat, i: nat, k: real) {
    exists j: nat :: Within(run, begin, j, i) && k !in Keys(run[j].g.nodes)
  }

  // The node was on the chain (unmarked) at some instant between `begin` and `i`.
  ghost predicate WasLinked(run: seq<State>, begin: nat, i: nat, x: Ptr) {
    exists j: nat :: Within(run, begin, j, i) && x in run[j].g.linked
  }

  ghost predicate WasLive(run: seq<State>, begin: nat, i: nat, n: Ptr) {
    exists j: nat :: Within(run, begin, j, i) && n in run[j].g.nodes && !run[j].g.nodes[n].marked
  }

  // Step `m` removes node `n`, with key `k`.
  ghost predicate Dies(run: seq<State>, m: int, n: Ptr, k: real) {
    && 0 <= m < |run| - 1 && n in run[m].g.nodes && n in run[m + 1].g.nodes
    && !run[m].g.nodes[n].marked && run[m + 1].g.nodes[n].marked && run[m].g.nodes[n].key == k
  }

  // The map had the entry at some instant between `begin` and `i`.
  ghost predicate WasEntry(run: seq<State>, begin: nat, i: nat, k: real, v: Value) {
    exists j: nat :: Within(run, begin, j, i) && k in Contents(run[j].g) && Contents(run[j].g)[k] == v
  }

  // Step `m` removed node `n`, then step `w` of thread `u` wrote to it, then it was read at `r`.
  datatype Late = Late(m: nat, w: nat, u: Tid, n: Ptr, r: nat)

  // Or thread `t` read the value off a node that had been removed between, and
  // whose last write before the read came after the removal.
  ghost predicate WasLate(run: seq<State>, t: Tid, begin: nat, i: nat, k: real, v: Value) {
    exists l :: LateWrite(run, t, begin, i, k, v, l)
  }

  ghost predicate LateWrite(run: seq<State>, t: Tid, begin: nat, i: nat, k: real, v: Value, l: Late) {
    && begin <= l.m < l.w < l.r <= i < |run| && Dies(run, l.m, l.n, k) && Did(run, l.u, l.w, k, v, Swapped(l.n))
    && t in run[l.r].threads && run[l.r].threads[t].pc == LoadValue(l.n)
    && forall j {:trigger run[j]} :: l.w < j <= l.r ==> l.n in run[j].g.cells && run[j].g.cells[l.n].value == v
  }

  lemma Grows(run: seq<State>, begin: nat, i: nat, k: real)
    requires begin <= i && i + 1 < |run|
    ensures WasIn(run, begin, i, k) ==> WasIn(run, begin, i + 1, k)
    ensures WasOut(run, begin, i, k) ==> WasOut(run, begin, i + 1, k)
  {
    if WasIn(run, begin, i, k) {
      var j: nat :| Within(run, begin, j, i) && k in Keys(run[j].g.nodes);
      assert Within(run, begin, j, i + 1);
    }
    if WasOut(run, begin, i, k) {
      var j: nat :| Within(run, begin, j, i) && k !in Keys(run[j].g.nodes);
      assert Within(run, begin, j, i + 1);
    }
  }

  lemma LinkedGrows(run: seq<State>, begin: nat, i: nat, x: Ptr)
    requires begin <= i && i + 1 < |run|
    ensures WasLinked(run, begin, i, x) ==> WasLinked(run, begin, i + 1, x)
    ensures WasLive(run, begin, i, x) ==> WasLive(run, begin, i + 1, x)
  {
    if WasLinked(run, begin, i, x) {
      var j: nat :| Within(run, begin, j, i) && x in run[j].g.linked;
      assert Within(run, begin, j, i + 1);
    }
    if WasLive(run, begin, i, x) {
      var j: nat :| Within(run, begin, j, i) && x in run[j].g.nodes && !run[j].g.nodes[x].marked;
      assert Within(run, begin, j, i + 1);
    }
  }

  lemma EntryGrows(run: seq<State>, t: Tid, begin: nat, i: nat, k: real, v: Value)
    requires begin <= i && i + 1 < |run|
    ensures WasEntry(run, begin, i, k, v) ==> WasEntry(run, begin, i + 1, k, v)
    ensures WasLate(run, t, begin, i, k, v) ==> WasLate(run, t, begin, i + 1, k, v)
  {
    hide Contents, Did, Dies;
    if WasEntry(run, begin, i, k, v) {
      var j: nat :| Within(run, begin, j, i) && k in Contents(run[j].g) && Contents(run[j].g)[k] == v;
      assert Within(run, begin, j, i + 1);
    }
    if WasLate(run, t, begin, i, k, v) {
      var l :| LateWrite(run, t, begin, i, k, v, l);
      assert LateWrite(run, t, begin, i + 1, k, v, l);
    }
  }

  lemma Now(run: seq<State>, begin: nat, i: nat, k: real)
    requires begin <= i < |run|
    ensures Present(run[i].g.nodes, k) ==> WasIn(run, begin, i, k)
    ensures !Present(run[i].g.nodes, k) ==> WasOut(run, begin, i, k)
    ensures forall x {:trigger WasLinked(run, begin, i, x)} :: x in run[i].g.linked ==> WasLinked(run, begin, i, x)
  {
    assert Within(run, begin, i, i);
  }

  lemma {:induction false} ClockIsIndex(run: seq<State>, i: nat)
    requires Behavior(run) && i < |run|
    ensures run[i].g.clock == i
    ensures run[i].threads.Keys == run[0].threads.Keys
  {
    if i > 0 {
      ClockIsIndex(run, i - 1);
      assert StepAt(run, i - 1);
    }
  }

  // ---------------------------------------------------------------------------
  // The history of a node
  // ---------------------------------------------------------------------------

  lemma {:induction false} NodeStays(run: seq<State>, j: nat, i: nat, n: Ptr)
    requires Behavior(run) && j <= i < |run| && n in run[j].g.nodes
    ensures n in run[i].g.nodes && run[i].g.nodes[n].key == run[j].g.nodes[n].key
    ensures run[j].g.nodes[n].marked ==> run[i].g.nodes[n] == run[j].g.nodes[n]
  {
    if j < i {
      NodeStays(run, j, i - 1, n);
      AlwaysInv(run, i - 1);
      assert StepAt(run, i - 1);
      var t, a :| Next(run[i - 1], t, a, run[i]);
      ListKept(run[i - 1].g, run[i - 1].threads[t], a);
    }
  }

  // When the node's value was written, and what it has been since.
  ghost predicate WroteOk(run: seq<State>, i: nat, n: Ptr) {
    && i < |run| && n in run[i].g.cells && n in run[i].g.nodes
    && var c := run[i].g.cells[n];
    && c.wrote < i
    && (forall j {:trigger run[j]} :: c.wrote < j <= i ==> n in run[j].g.cells && run[j].g.cells[n].value == c.value)
    && (n in run[c.wrote].g.nodes ==> exists u :: Did(run, u, c.wrote, run[i].g.nodes[n].key, c.value, Swapped(n)))
  }

  ghost predicate DiedOk(run: seq<State>, i: nat, n: Ptr) {
    && i < |run| && n in run[i].g.cells && n in run[i].g.nodes
    && (run[i].g.nodes[n].marked ==>
          run[i].g.cells[n].died < i && Dies(run, run[i].g.cells[n].died, n, run[i].g.nodes[n].key))
  }

  // What a step does to the value of one node.
  ghost predicate Celled(s: State, t: Tid, a: Action, s': State, n: Ptr)
    requires t in s.threads && n in s'.g.nodes
  {
    && n in s'.g.cells && (n in s.g.nodes ==> n in s.g.cells && s'.g.nodes[n].key == s.g.nodes[n].key)
    && (n !in s.g.nodes ==> s'.g.cells[n].wrote == s.g.clock && !s'.g.nodes[n].marked)
    && (n in s.g.nodes && (s'.g.cells[n].value != s.g.cells[n].value || s'.g.cells[n].wrote != s.g.cells[n].wrote) ==>
          && s'.g.cells[n].wrote == s.g.clock && Does(s.g, s.threads[t], a, Swapped(n))
          && s'.g.cells[n].value == s.threads[t].val && s.threads[t].key == s.g.nodes[n].key)
    && (n in s.g.nodes && s'.g.nodes[n].marked && !s.g.nodes[n].marked ==> s'.g.cells[n].died == s.g.clock)
    && (n in s.g.nodes && s.g.nodes[n].marked ==> s'.g.nodes[n].marked && s'.g.cells[n].died == s.g.cells[n].died)
  }

  lemma CellStep(s: State, t: Tid, a: Action, s': State, n: Ptr)
    requires Inv(s) && Next(s, t, a, s') && n in s'.g.nodes && n != HEAD && n != TAIL
    ensures Celled(s, t, a, s', n)
  {
    hide Shape, Retired, Rely, PcInv, Base, AfterLoad, Counted;
    var g, th := s.g, s.threads[t];
    ListKept(g, th, a);
    assert CellOk(Outcome(g, th, a).1.nodes, Outcome(g, th, a).1.cells, n);
    if n in g.nodes { assert CellOk(g.nodes, g.cells, n); }
    assert ThreadOk(g, th);
    if th.pc.Update? { UpdateKey(g, th); }
  }

  lemma UpdateKey(g: Shared, th: Thread)
    requires ThreadOk(g, th) && th.pc.Update?
    ensures th.pc.node in g.nodes && g.nodes[th.pc.node].key == th.key
  {
  }

  lemma {:induction false} CellHistory(run: seq<State>, i: nat, n: Ptr)
    requires Behavior(run) && i < |run| && n in run[i].g.nodes && n != HEAD && n != TAIL
    ensures WroteOk(run, i, n) && DiedOk(run, i, n)
  {
    hide Inv, Next, Dies;
    if i > 0 {
      var s, s' := run[i - 1], run[i];
      AlwaysInv(run, i - 1);
      ClockIsIndex(run, i - 1);
      assert StepAt(run, i - 1);
      var t, a :| Next(s, t, a, s');
      CellStep(s, t, a, s', n);
      if n in s.g.nodes { CellHistory(run, i - 1, n); }
      assert t in s.threads by { Mover(s, t, a, s'); }
      WroteNext(run, i, n, t, a);
      DiedNext(run, i, n, t, a);
    }
  }

  lemma Mover(s: State, t: Tid, a: Action, s': State)
    requires Next(s, t, a, s')
    ensures t in s.threads
  {
  }

  lemma WroteNext(run: seq<State>, i: nat, n: Ptr, t: Tid, a: Action)
    requires 0 < i < |run| && Next(run[i - 1], t, a, run[i]) && run[i - 1].g.clock == i - 1
    requires n in run[i].g.nodes && t in run[i - 1].threads && Celled(run[i - 1], t, a, run[i], n)
    requires n in run[i - 1].g.nodes ==> WroteOk(run, i - 1, n)
    ensures WroteOk(run, i, n)
  {
    hide Next;
    var s, s' := run[i - 1], run[i];
    var c := s'.g.cells[n];
    if n in s.g.nodes && c.wrote == i - 1 && Does(s.g, s.threads[t], a, Swapped(n)) {
      assert c.value == s.threads[t].val ==> Did(run, t, i - 1, s.g.nodes[n].key, c.value, Swapped(n));
    }
  }

  lemma DiedNext(run: seq<State>, i: nat, n: Ptr, t: Tid, a: Action)
    requires 0 < i < |run| && run[i - 1].g.clock == i - 1
    requires n in run[i].g.nodes && t in run[i - 1].threads && Celled(run[i - 1], t, a, run[i], n)
    requires n in run[i - 1].g.nodes ==> DiedOk(run, i - 1, n)
    ensures DiedOk(run, i, n)
  {
  }

  // ---------------------------------------------------------------------------
  // What the registers of a thread say about the run so far
  // ---------------------------------------------------------------------------

  predicate HasAdded(pc: Pc) {
    pc.CountAdd? || pc == Returned(Insert, true) || Helping(pc)
  }

  predicate HasDropped(pc: Pc) {
    Victim(pc) != NULL || pc == Returned(Remove, true)
  }

  // The node an insert is about to overwrite, or a get to read.
  function Held(pc: Pc): Ptr {
    match pc
    case Update(n) => n
    case ReadMark(n) => n
    case LoadValue(n) => n
    case _ => NULL
  }

  ghost predicate Own(run: seq<State>, i: nat, t: Tid, th: Thread, d: Deed) {
    th.begin <= th.point < i && Did(run, t, th.point, th.key, th.val, d)
  }

  // The thread's own swap, on a node that was there at some time since the operation began.
  ghost predicate OwnSwap(run: seq<State>, i: nat, t: Tid, th: Thread, n: Ptr) {
    Own(run, i, t, th, Swapped(n)) && WasLive(run, th.begin, th.point, n)
  }

  ghost predicate Windows(run: seq<State>, i: nat, th: Thread) {
    && (th.seenIn ==> WasIn(run, th.begin, i, th.key))
    && (th.seenOut ==> WasOut(run, th.begin, i, th.key))
    && (forall x {:trigger WasLinked(run, th.begin, i, x)} :: x in th.reached ==> WasLinked(run, th.begin, i, x))
    && (Held(th.pc) != NULL ==> WasLive(run, th.begin, i, Held(th.pc)))
  }

  ghost predicate Deeds(run: seq<State>, i: nat, t: Tid, th: Thread) {
    && (HasAdded(th.pc) ==> Own(run, i, t, th, Published))
    && (HasDropped(th.pc) ==> Own(run, i, t, th, Marked))
    && (th.pc == Returned(Insert, false) ==> exists n :: OwnSwap(run, i, t, th, n))
    && (th.pc == Returned(Get, true) ==>
          WasEntry(run, th.begin, i, th.key, th.got) || WasLate(run, t, th.begin, i, th.key, th.got))
  }

  ghost predicate Witnessed(run: seq<State>, i: nat, t: Tid, th: Thread) {
    th.pc.Idle? || (th.begin <= i < |run| && Windows(run, i, th) && Deeds(run, i, t, th))
  }

  // ---------------------------------------------------------------------------
  // A thread that does not move
  // ---------------------------------------------------------------------------

  lemma WindowsGrow(run: seq<State>, i: nat, th: Thread)
    requires th.begin <= i && i + 1 < |run| && Windows(run, i, th)
    ensures Windows(run, i + 1, th)
  {
    hide WasIn, WasOut, WasLinked, WasLive;
    Grows(run, th.begin, i, th.key);
    forall x | x in th.reached ensures WasLinked(run, th.begin, i + 1, x) {
      LinkedGrows(run, th.begin, i, x);
      assert WasLinked(run, th.begin, i, x);
    }
    LinkedGrows(run, th.begin, i, Held(th.pc));
  }

  lemma DeedsGrow(run: seq<State>, i: nat, t: Tid, th: Thread)
    requires th.begin <= i && i + 1 < |run| && Deeds(run, i, t, th)
    ensures Deeds(run, i + 1, t, th)
  {
    hide WasEntry, WasLate, WasLive, Did;
    EntryGrows(run, t, th.begin, i, th.key, th.got);
    if th.pc == Returned(Insert, false) {
      var n :| OwnSwap(run, i, t, th, n);
      assert OwnSwap(run, i + 1, t, th, n);
    }
  }

  // Taking in the state just reached keeps the windows right.
  lemma LookRight(run: seq<State>, i: nat, th: Thread)
    requires th.begin <= i < |run| && Windows(run, i, th)
    ensures Windows(run, i, Observe(th, run[i].g.nodes, run[i].g.linked))
  {
    hide WasIn, WasOut, WasLinked, WasLive, Present;
    Now(run, th.begin, i, th.key);
  }

  lemma OtherWitnessed(run: seq<State>, i: nat, t: Tid, th: Thread)
    requires i + 1 < |run| && Witnessed(run, i, t, th)
    ensures Witnessed(run, i + 1, t, Observe(th, run[i + 1].g.nodes, run[i + 1].g.linked))
  {
    hide Windows, Deeds;
    if !th.pc.Idle? {
      WindowsGrow(run, i, th);
      DeedsGrow(run, i, t, th);
      Looked(run, i + 1, t, th);
    }
  }

  lemma Looked(run: seq<State>, i: nat, t: Tid, th: Thread)
    requires th.begin <= i < |run| && Windows(run, i, th) && Deeds(run, i, t, th)
    ensures Witnessed(run, i, t, Observe(th, run[i].g.nodes, run[i].g.linked))
  {
    hide WasIn, WasOut, WasLinked, WasLive, WasEntry, WasLate, Did, Windows;
    LookRight(run, i, th);
    var th' := Observe(th, run[i].g.nodes, run[i].g.linked);
    if th.pc == Returned(Insert, false) {
      var n :| OwnSwap(run, i, t, th, n);
      assert OwnSwap(run, i, t, th', n);
    }
  }

  // ---------------------------------------------------------------------------
  // The thread that moves
  // ---------------------------------------------------------------------------

  // Which registers a step that starts no operation writes.
  ghost predicate Writes(g: Shared, th: Thread, a: Action, th': Thread) {
    && !th.pc.Idle? && !th'.pc.Idle?
    && th'.key == th.key && th'.val == th.val && th'.begin == th.begin <= g.clock
    && th'.seenIn == th.seenIn && th'.seenOut == th.seenOut && th'.reached <= th.reached + g.linked
    && (Held(th'.pc) != NULL && Held(th'.pc) != Held(th.pc) ==>
          Held(th'.pc) in g.nodes && !g.nodes[Held(th'.pc)].marked)
    && (HasAdded(th'.pc) ==>
          if HasAdded(th.pc) then th'.point == th.point
          else Publishes(g, th, a) && th'.point == g.clock)
    && (HasDropped(th'.pc) ==>
          if HasDropped(th.pc) then th'.point == th.point
          else Marks(g, th, a) && th'.point == g.clock)
    && (th'.pc == Returned(Insert, false) ==> Swaps(th, a) && th'.point == g.clock)
    && (th'.pc == Returned(Get, true) ==>
          th.pc.LoadValue? && th.pc.node in g.cells && th'.got == g.cells[th.pc.node].value)
  }

  lemma Registers(g: Shared, th: Thread, a: Action)
    requires Enabled(g, th, a) && !a.Begin? && ThreadOk(g, th) && ListInv(g)
    ensures Writes(g, th, a, Outcome(g, th, a).0)
  {
    hide ListInv, ThreadOk, Writes;
    RealNodes(g, th);
    if !a.Go? || th.pc.Load? {
      SearchWrites(g, th, a);
    } else if th.pc.Splice? || th.pc.Publish? || th.pc.Mark? {
      CasWrites(g, th, a);
    } else if th.pc.Update? || th.pc.ReadMark? || th.pc.LoadValue? {
      ValueWrites(g, th, a);
    } else {
      PlainWrites(g, th, a);
    }
  }

  predicate RealThread(g: Shared, th: Thread) {
    && (Active(th) ==> th.begin <= g.clock)
    && (th.pc.CountSub? || th.pc.Retire? || th.pc.Mark? ==> th.pc.node != NULL)
  }

  lemma CasWrites(g: Shared, th: Thread, a: Action)
    requires Enabled(g, th, a) && RealThread(g, th) && a.Go? && (th.pc.Splice? || th.pc.Publish? || th.pc.Mark?)
    ensures Writes(g, th, a, Outcome(g, th, a).0)
  {
    hide CasOk, AfterLoad, Counted;
  }

  lemma SearchWrites(g: Shared, th: Thread, a: Action)
    requires Enabled(g, th, a) && RealThread(g, th) && !a.Begin? && (a.Go? ==> th.pc.Load?)
    ensures Writes(g, th, a, Outcome(g, th, a).0)
  {
    hide AfterLoad, CasOk, Counted;
    if a.Go? { AfterLoadPc(th, g.nodes[th.pc.curr]); }
  }

  lemma ValueWrites(g: Shared, th: Thread, a: Action)
    requires Enabled(g, th, a) && RealThread(g, th) && a.Go? && (th.pc.Update? || th.pc.ReadMark? || th.pc.LoadValue?)
    ensures Writes(g, th, a, Outcome(g, th, a).0)
  {
    hide AfterLoad, CasOk, Counted;
  }

  lemma PlainWrites(g: Shared, th: Thread, a: Action)
    requires Enabled(g, th, a) && RealThread(g, th) && a.Go?
    requires !th.pc.Load? && !th.pc.Splice? && !th.pc.Publish? && !th.pc.Mark?
    requires !th.pc.Update? && !th.pc.ReadMark? && !th.pc.LoadValue?
    ensures Writes(g, th, a, Outcome(g, th, a).0)
  {
    hide AfterLoad, CasOk, Counted;
  }

  lemma RealNodes(g: Shared, th: Thread)
    requires ThreadOk(g, th) && ListInv(g)
    ensures RealThread(g, th)
  {
    Data(g);
  }

  lemma Data(g: Shared)
    requires ListInv(g)
    ensures NULL !in g.nodes
  {
  }

  lemma AfterLoadPc(th: Thread, node: Node)
    requires th.pc.Load?
    ensures var pc := AfterLoad(th, node);
            && !pc.Idle? && HasAdded(pc) == HasAdded(th.pc) && HasDropped(pc) == HasDropped(th.pc)
            && pc != Returned(Insert, false) && pc != Returned(Get, true)
            && (Held(pc) != NULL ==> Held(pc) == th.pc.curr && !node.marked)
  {
  }

  lemma WindowsMove(run: seq<State>, i: nat, t: Tid, a: Action, th: Thread, th': Thread)
    requires i + 1 < |run| && run[i].g.clock == i && th.begin <= i && Windows(run, i, th)
    requires Writes(run[i].g, th, a, th')
    ensures Windows(run, i + 1, th')
  {
    hide WasIn, WasOut, WasLinked, WasLive, Publishes, Marks, HasAdded, HasDropped;
    WindowsGrow(run, i, th);
    Now(run, th.begin, i, th.key);
    forall x | x in th'.reached ensures WasLinked(run, th.begin, i + 1, x) {
      if x !in th.reached {
        assert WasLinked(run, th.begin, i, x);
        LinkedGrows(run, th.begin, i, x);
      } else {
        assert WasLinked(run, th.begin, i + 1, x);
      }
    }
    var n := Held(th'.pc);
    if n != NULL && n != Held(th.pc) { LiveNow(run, th.begin, i, n); }
  }

  lemma LiveNow(run: seq<State>, begin: nat, i: nat, n: Ptr)
    requires begin <= i && i + 1 < |run| && n in run[i].g.nodes && !run[i].g.nodes[n].marked
    ensures WasLive(run, begin, i + 1, n)
  {
    assert Within(run, begin, i, i + 1);
  }

  lemma DeedNow(run: seq<State>, i: nat, t: Tid, a: Action, d: Deed)
    requires i + 1 < |run| && Next(run[i], t, a, run[i + 1]) && t in run[i].threads
    requires Does(run[i].g, run[i].threads[t], a, d)
    ensures Did(run, t, i, run[i].threads[t].key, run[i].threads[t].val, d)
  {
  }

  lemma DeedsMove(run: seq<State>, i: nat, t: Tid, a: Action, th: Thread, th': Thread)
    requires i + 1 < |run| && run[i].g.clock == i && Next(run[i], t, a, run[i + 1])
    requires t in run[i].threads && th == run[i].threads[t] && th.begin <= i
    requires Windows(run, i, th) && Deeds(run, i, t, th) && Writes(run[i].g, th, a, th')
    requires th.pc.Update? ==> th.pc.node != NULL
    requires th'.pc == Returned(Get, true) ==>
      WasEntry(run, th.begin, i, th.key, th'.got) || WasLate(run, t, th.begin, i, th.key, th'.got)
    ensures Deeds(run, i + 1, t, th')
  {
    hide Next, WasIn, WasOut, WasLinked, WasLive, WasEntry, WasLate, Did;
    EntryGrows(run, t, th.begin, i, th.key, th'.got);
    if HasAdded(th'.pc) && !HasAdded(th.pc) { DeedNow(run, i, t, a, Published); }
    if HasDropped(th'.pc) && !HasDropped(th.pc) { DeedNow(run, i, t, a, Marked); }
    if th'.pc == Returned(Insert, false) {
      DeedNow(run, i, t, a, Swapped(th.pc.node));
      assert OwnSwap(run, i + 1, t, th', th.pc.node);
    }
  }

  // ---------------------------------------------------------------------------
  // The value a get reads
  // ---------------------------------------------------------------------------

  // A node that was there at some time since `begin` died after that time.
  lemma DiedSince(run: seq<State>, begin: nat, i: nat, n: Ptr, m: int, k: real)
    requires Behavior(run) && WasLive(run, begin, i, n) && m < i < |run| && Dies(run, m, n, k)
    ensures begin <= m
  {
    var j: nat :| Within(run, begin, j, i) && n in run[j].g.nodes && !run[j].g.nodes[n].marked;
    if m < j { NodeStays(run, m + 1, j, n); }
  }

  lemma SwapIsNoDeath(run: seq<State>, w: int, u: Tid, n: Ptr, k: real, v: Value)
    requires Did(run, u, w, k, v, Swapped(n))
    ensures !Dies(run, w, n, k)
  {
  }

  lemma ReadValue(run: seq<State>, t: Tid, begin: nat, i: nat, n: Ptr)
    requires Behavior(run) && i < |run| && WasLive(run, begin, i, n)
    requires t in run[i].threads && run[i].threads[t].pc == LoadValue(n)
    requires n in run[i].g.nodes && n != HEAD && n != TAIL && n in run[i].g.cells && begin <= i
    ensures var k, v := run[i].g.nodes[n].key, run[i].g.cells[n].value;
            WasEntry(run, begin, i, k, v) || WasLate(run, t, begin, i, k, v)
  {
    hide Contents, WasLive, Did, Dies, Inv;
    var k, c := run[i].g.nodes[n].key, run[i].g.cells[n];
    CellHistory(run, i, n);
    if !run[i].g.nodes[n].marked {
      EntryAt(run, begin, i, n, i);
    } else {
      var m := c.died;
      DiedSince(run, begin, i, n, m, k);
      DiesWhere(run, m, n, k);
      if c.wrote < m {
        EntryAt(run, begin, i, n, m);
      } else {
        NodeStays(run, m, c.wrote, n);
        var u :| Did(run, u, c.wrote, k, c.value, Swapped(n));
        SwapIsNoDeath(run, c.wrote, u, n, k, c.value);
        assert LateWrite(run, t, begin, i, k, c.value, Late(m, c.wrote, u, n, i));
      }
    }
  }

  lemma DiesWhere(run: seq<State>, m: int, n: Ptr, k: real)
    requires Dies(run, m, n, k)
    ensures 0 <= m < |run| - 1 && n in run[m].g.nodes && !run[m].g.nodes[n].marked && run[m].g.nodes[n].key == k
  {
  }

  // The value was in the map at an instant after its last write, while the node was there.
  lemma EntryAt(run: seq<State>, begin: nat, i: nat, n: Ptr, m: nat)
    requires Behavior(run) && WroteOk(run, i, n) && begin <= m <= i && run[i].g.cells[n].wrote < m
    requires n in run[m].g.nodes && !run[m].g.nodes[n].marked && n != HEAD && n != TAIL
    ensures WasEntry(run, begin, i, run[i].g.nodes[n].key, run[i].g.cells[n].value)
  {
    hide Contents, Did;
    AlwaysInv(run, m);
    NodeStays(run, m, i, n);
    ContentsAt(run[m].g, n, run[m].g.nodes[n].key);
    assert Within(run, begin, m, i);
  }

  // ---------------------------------------------------------------------------
  // Every thread, in every run
  // ---------------------------------------------------------------------------

  lemma BeginWitnessed(run: seq<State>, i: nat, t: Tid, a: Action)
    requires i + 1 < |run| && run[i].g.clock == i && Next(run[i], t, a, run[i + 1]) && a.Begin?
    ensures t in run[i + 1].threads && Witnessed(run, i + 1, t, run[i + 1].threads[t])
  {
    hide WasIn, WasOut, WasLinked, WasLive, WasEntry, WasLate, Did, Present;
    var th := Outcome(run[i].g, run[i].threads[t], a).0;
    Now(run, i + 1, i + 1, th.key);
    Looked(run, i + 1, t, th);
  }

  lemma TargetIsData(g: Shared, th: Thread)
    requires ListInv(g) && ThreadOk(g, th) && Held(th.pc) != NULL
    ensures Held(th.pc) in g.nodes && Held(th.pc) != HEAD && Held(th.pc) != TAIL
    ensures Held(th.pc) in g.cells && g.nodes[Held(th.pc)].key == th.key
  {
    assert CellOk(g.nodes, g.cells, Held(th.pc));
  }

  lemma MoverWitnessed(run: seq<State>, i: nat, t: Tid, a: Action)
    requires Behavior(run) && i + 1 < |run| && run[i].g.clock == i && Inv(run[i])
    requires Next(run[i], t, a, run[i + 1]) && !a.Begin? && t in run[i].threads
    requires Witnessed(run, i, t, run[i].threads[t])
    ensures t in run[i + 1].threads && Witnessed(run, i + 1, t, run[i + 1].threads[t])
  {
    hide Behavior, ListInv, ThreadOk, Windows, Deeds, WasEntry, WasLate, Present;
    var g, th := run[i].g, run[i].threads[t];
    var th' := Outcome(g, th, a).0;
    assert ListInv(g) && ThreadOk(g, th);
    Registers(g, th, a);
    Data(g);
    if th.pc.Update? { UpdateNode(g, th); }
    if th'.pc == Returned(Get, true) { GetReads(run, i, t, th); }
    WindowsMove(run, i, t, a, th, th');
    DeedsMove(run, i, t, a, th, th');
    Looked(run, i + 1, t, th');
  }

  lemma UpdateNode(g: Shared, th: Thread)
    requires ListInv(g) && ThreadOk(g, th) && (th.pc.Update? || th.pc.LoadValue?)
    ensures Held(th.pc) != NULL
  {
  }

  lemma GetReads(run: seq<State>, i: nat, t: Tid, th: Thread)
    requires Behavior(run) && i < |run| && th.begin <= i && Windows(run, i, th)
    requires t in run[i].threads && th == run[i].threads[t]
    requires ListInv(run[i].g) && ThreadOk(run[i].g, th) && th.pc.LoadValue? && th.pc.node in run[i].g.cells
    ensures var v := run[i].g.cells[th.pc.node].value;
            WasEntry(run, th.begin, i, th.key, v) || WasLate(run, t, th.begin, i, th.key, v)
  {
    hide Behavior, ListInv, ThreadOk, WasEntry, WasLate, WasIn, WasOut, WasLinked, WasLive;
    UpdateNode(run[i].g, th);
    TargetIsData(run[i].g, th);
    ReadValue(run, t, th.begin, i, th.pc.node);
  }

  lemma WitnessedStep(run: seq<State>, i: nat, t: Tid, u: Tid, a: Action)
    requires Behavior(run) && i + 1 < |run| && Inv(run[i]) && run[i].g.clock == i && Next(run[i], u, a, run[i + 1])
    requires t in run[i].threads && Witnessed(run, i, t, run[i].threads[t])
    ensures t in run[i + 1].threads && Witnessed(run, i + 1, t, run[i + 1].threads[t])
  {
    hide Behavior, Inv, Witnessed;
    if u != t {
      OtherWitnessed(run, i, t, run[i].threads[t]);
    } else if a.Begin? {
      BeginWitnessed(run, i, t, a);
    } else {
      MoverWitnessed(run, i, t, a);
    }
  }

  lemma {:induction false} AlwaysWitnessed(run: seq<State>, i: nat, t: Tid)
    requires Behavior(run) && i < |run| && t in run[0].threads
    ensures t in run[i].threads && Witnessed(run, i, t, run[i].threads[t])
  {
    hide Inv, Witnessed, Next;
    ClockIsIndex(run, i);
    if i == 0 {
      StartWitnessed(run, t);
    } else {
      AlwaysWitnessed(run, i - 1, t);
      AlwaysInv(run, i - 1);
      ClockIsIndex(run, i - 1);
      assert StepAt(run, i - 1);
      var u, a :| Next(run[i - 1], u, a, run[i]);
      WitnessedStep(run, i - 1, t, u, a);
    }
  }

  lemma StartWitnessed(run: seq<State>, t: Tid)
    requires |run| > 0 && Init(run[0]) && t in run[0].threads
    ensures Witnessed(run, 0, t, run[0].threads[t])
  {
  }

  // ---------------------------------------------------------------------------
  // Searches that start at a dead node
  // ---------------------------------------------------------------------------

  // Between `begin` and `i` thread `t` entered level 0 at a node that had not
  // been on the chain since `begin`.
  ghost predicate DeadStart(run: seq<State>, t: Tid, begin: nat, i: nat) {
    exists j: nat :: EntersDead(run, t, begin, i, j)
  }

  ghost predicate EntersDead(run: seq<State>, t: Tid, begin: nat, i: nat, j: nat) {
    && begin <= j < i < |run| && t in run[j].threads && run[j].threads[t].pc.Route?
    && Next(run[j], t, Enter, run[j + 1])
    && !WasLinked(run, begin, j, run[j].threads[t].pc.start)
  }

  // Since when `reached` collects nodes: the begin, or the thread's own mark.
  function Since(th: Thread): nat {
    if HasDropped(th.pc) && th.point >= 0 then th.point else th.begin
  }

  ghost predicate Complete(run: seq<State>, i: nat, th: Thread) {
    forall x {:trigger WasLinked(run, Since(th), i, x)} :: WasLinked(run, Since(th), i, x) ==> x in th.reached
  }

  // A remove that has just marked its node has not entered level 0 again yet.
  predicate Entered(th: Thread) {
    !th.pc.Idle? && !(th.pc.Route? && HasDropped(th.pc))
  }

  ghost predicate Starts(run: seq<State>, i: nat, t: Tid, th: Thread) {
    && (Active(th) ==> Since(th) <= i && Complete(run, i, th))
    && (th.stale && Entered(th) ==> DeadStart(run, t, Since(th), i))
  }

  lemma DeadGrows(run: seq<State>, t: Tid, begin: nat, i: nat)
    requires i + 1 < |run|
    ensures DeadStart(run, t, begin, i) ==> DeadStart(run, t, begin, i + 1)
  {
    hide Next, WasLinked;
    if DeadStart(run, t, begin, i) {
      var j: nat :| EntersDead(run, t, begin, i, j);
      assert EntersDead(run, t, begin, i + 1, j);
    }
  }

  lemma CompleteNext(run: seq<State>, i: nat, th: Thread, th': Thread)
    requires i + 1 < |run| && Since(th') == Since(th) <= i && Complete(run, i, th)
    requires th.reached <= th'.reached && run[i + 1].g.linked <= th'.reached
    ensures Complete(run, i + 1, th')
  {
    forall x | WasLinked(run, Since(th), i + 1, x) ensures x in th'.reached {
      var j: nat :| Within(run, Since(th), j, i + 1) && x in run[j].g.linked;
      if j <= i {
        assert Within(run, Since(th), j, i);
        assert WasLinked(run, Since(th), i, x);
      }
    }
  }

  // A window that begins now, or with the next state.
  lemma CompleteAfresh(run: seq<State>, i: nat, th: Thread)
    requires i + 1 < |run| && i <= Since(th) <= i + 1
    requires run[i].g.linked <= th.reached && run[i + 1].g.linked <= th.reached
    ensures Complete(run, i + 1, th)
  {
  }

  lemma StartsOther(run: seq<State>, i: nat, t: Tid, th: Thread)
    requires i + 1 < |run| && Starts(run, i, t, th)
    ensures Starts(run, i + 1, t, Observe(th, run[i + 1].g.nodes, run[i + 1].g.linked))
  {
    hide Next, WasLinked, Complete, DeadStart, Present;
    DeadGrows(run, t, Since(th), i);
    var th' := Observe(th, run[i + 1].g.nodes, run[i + 1].g.linked);
    if Active(th) { CompleteNext(run, i, th, th'); }
  }

  lemma StartsBegin(run: seq<State>, i: nat, t: Tid, a: Action)
    requires i + 1 < |run| && run[i].g.clock == i && Next(run[i], t, a, run[i + 1]) && a.Begin?
    ensures t in run[i + 1].threads && Starts(run, i + 1, t, run[i + 1].threads[t])
  {
    hide WasLinked, Complete, DeadStart, Present;
    CompleteAfresh(run, i, run[i + 1].threads[t]);
  }

  // What a step of the thread itself does to its starts.
  ghost predicate Moves(g: Shared, th: Thread, a: Action, th': Thread) {
    && Active(th)
    && (Marks(g, th, a) ==> th'.pc.Route? && HasDropped(th'.pc) && th'.reached == g.linked && Since(th') == g.clock)
    && (!Marks(g, th, a) ==> Since(th') == Since(th) && th'.reached == th.reached)
    && (a.Enter? ==> th.pc.Route? && th'.stale == (th.pc.start !in th.reached))
    && (!a.Enter? ==> th'.stale == th.stale && (!Marks(g, th, a) && Entered(th') ==> Entered(th)))
  }

  lemma MovesHow(g: Shared, th: Thread, a: Action)
    requires Enabled(g, th, a) && !a.Begin? && ThreadOk(g, th) && ListInv(g)
    ensures Moves(g, th, a, Outcome(g, th, a).0)
  {
    hide ListInv, ThreadOk, Moves;
    RealNodes(g, th);
    if !a.Go? || th.pc.Load? { SearchMoves(g, th, a); }
    else if th.pc.Splice? || th.pc.Publish? || th.pc.Mark? { CasMoves(g, th, a); }
    else { PlainMoves(g, th, a); }
  }

  lemma SearchMoves(g: Shared, th: Thread, a: Action)
    requires Enabled(g, th, a) && RealThread(g, th) && !a.Begin? && (a.Go? ==> th.pc.Load?)
    ensures Moves(g, th, a, Outcome(g, th, a).0)
  {
    hide AfterLoad, CasOk, Counted;
    if a.Go? { AfterLoadPc(th, g.nodes[th.pc.curr]); }
  }

  lemma CasMoves(g: Shared, th: Thread, a: Action)
    requires Enabled(g, th, a) && RealThread(g, th) && a.Go? && (th.pc.Splice? || th.pc.Publish? || th.pc.Mark?)
    ensures Moves(g, th, a, Outcome(g, th, a).0)
  {
    hide AfterLoad, CasOk, Counted;
  }

  lemma PlainMoves(g: Shared, th: Thread, a: Action)
    requires Enabled(g, th, a) && RealThread(g, th) && a.Go?
    requires !th.pc.Load? && !th.pc.Splice? && !th.pc.Publish? && !th.pc.Mark?
    ensures Moves(g, th, a, Outcome(g, th, a).0)
  {
    hide AfterLoad, CasOk, Counted;
  }

  lemma StartsMove(run: seq<State>, i: nat, t: Tid, a: Action, th: Thread, th': Thread)
    requires i + 1 < |run| && run[i].g.clock == i && Next(run[i], t, a, run[i + 1])
    requires t in run[i].threads && th == run[i].threads[t] && Starts(run, i, t, th)
    requires Moves(run[i].g, th, a, th')
    requires Marks(run[i].g, th, a) ==> run[i + 1].g.linked == run[i].g.linked
    ensures Starts(run, i + 1, t, Observe(th', run[i + 1].g.nodes, run[i + 1].g.linked))
  {
    hide Next, Complete, DeadStart, Present, WasLinked, Marks;
    DeadGrows(run, t, Since(th), i);
    var th1 := Observe(th', run[i + 1].g.nodes, run[i + 1].g.linked);
    if Marks(run[i].g, th, a) {
      CompleteAfresh(run, i, th1);
    } else if Active(th') {
      CompleteNext(run, i, th, th1);
    }
    if a.Enter? && th'.stale { DeadNow(run, i, t); }
  }

  lemma DeadNow(run: seq<State>, i: nat, t: Tid)
    requires i + 1 < |run| && Next(run[i], t, Enter, run[i + 1]) && t in run[i].threads
    requires run[i].threads[t].pc.Route? && Since(run[i].threads[t]) <= i
    requires Complete(run, i, run[i].threads[t]) && run[i].threads[t].pc.start !in run[i].threads[t].reached
    ensures DeadStart(run, t, Since(run[i].threads[t]), i + 1)
  {
    hide Next, WasLinked;
    assert EntersDead(run, t, Since(run[i].threads[t]), i + 1, i);
  }

  lemma StartsStep(run: seq<State>, i: nat, t: Tid, u: Tid, a: Action)
    requires i + 1 < |run| && Inv(run[i]) && run[i].g.clock == i && Next(run[i], u, a, run[i + 1])
    requires t in run[i].threads && Starts(run, i, t, run[i].threads[t])
    ensures t in run[i + 1].threads && Starts(run, i + 1, t, run[i + 1].threads[t])
  {
    hide Starts, ListInv, ThreadOk, Present, Moves;
    var g, th := run[i].g, run[i].threads[t];
    if u != t {
      StartsOther(run, i, t, th);
    } else if a.Begin? {
      StartsBegin(run, i, t, a);
    } else {
      assert ListInv(g) && ThreadOk(g, th);
      MovesHow(g, th, a);
      StartsMove(run, i, t, a, th, Outcome(g, th, a).0);
    }
  }

  lemma {:induction false} AlwaysStarts(run: seq<State>, i: nat, t: Tid)
    requires Behavior(run) && i < |run| && t in run[0].threads
    ensures t in run[i].threads && Starts(run, i, t, run[i].threads[t])
  {
    hide Inv, Starts, Next;
    ClockIsIndex(run, i);
    if i == 0 {
      StartsFirst(run, t);
    } else {
      AlwaysStarts(run, i - 1, t);
      AlwaysInv(run, i - 1);
      ClockIsIndex(run, i - 1);
      assert StepAt(run, i - 1);
      var u, a :| Next(run[i - 1], u, a, run[i]);
      StartsStep(run, i - 1, t, u, a);
    }
  }

  lemma StartsFirst(run: seq<State>, t: Tid)
    requires |run| > 0 && Init(run[0]) && t in run[0].threads
    ensures Starts(run, 0, t, run[0].threads[t])
  {
  }

  // ---------------------------------------------------------------------------
  // Every answer is explained
  // ---------------------------------------------------------------------------

  // The operation's own step added its entry, which was not there.
  ghost predicate Inserted(run: seq<State>, i: nat, t: Tid, th: Thread) {
    && Own(run, i, t, th, Published)
    && th.key !in Contents(run[th.point].g)
    && Contents(run[th.point + 1].g) == Contents(run[th.point].g)[th.key := th.val]
  }

  // The operation's own step removed the entry, which was there.
  ghost predicate Removed(run: seq<State>, i: nat, t: Tid, th: Thread) {
    && Own(run, i, t, th, Marked)
    && th.key in Contents(run[th.point].g)
    && Contents(run[th.point + 1].g) == Contents(run[th.point].g) - {th.key}
  }

  // The operation's own step overwrote the entry.  Or it wrote to a node that
  // another operation had removed since it began, and no map has changed.
  ghost predicate Replaced(run: seq<State>, i: nat, t: Tid, th: Thread, n: Ptr) {
    && Own(run, i, t, th, Swapped(n)) && n in run[th.point].g.nodes
    && if !run[th.point].g.nodes[n].marked then
         && th.key in Contents(run[th.point].g)
         && Contents(run[th.point + 1].g) == Contents(run[th.point].g)[th.key := th.val]
       else
         && Contents(run[th.point + 1].g) == Contents(run[th.point].g)
         && exists m: nat :: th.begin <= m < th.point && Dies(run, m, n, th.key)
  }

  // The value of a removed node was written by an insert whose time, like that of
  // the get, includes the removal.
  ghost predicate ReadLate(run: seq<State>, t: Tid, begin: nat, i: nat, k: real, v: Value) {
    exists l ::
      LateWrite(run, t, begin, i, k, v, l) && l.u in run[l.w].threads && run[l.w].threads[l.u].begin <= l.m
  }

  ghost predicate WasAbsent(run: seq<State>, begin: nat, i: nat, k: real) {
    exists j: nat :: Within(run, begin, j, i) && k !in Contents(run[j].g)
  }

  lemma OwnMapStep(run: seq<State>, t: Tid, m: nat, k: real, v: Value, d: Deed)
    requires Behavior(run) && Did(run, t, m, k, v, d)
    ensures d.Published? ==> k !in Contents(run[m].g) && Contents(run[m + 1].g) == Contents(run[m].g)[k := v]
    ensures d.Marked? ==> k in Contents(run[m].g) && Contents(run[m + 1].g) == Contents(run[m].g) - {k}
    ensures d.Swapped? ==> d.n in run[m].g.nodes && d.n != HEAD && d.n != TAIL
    ensures d.Swapped? ==>
      if !run[m].g.nodes[d.n].marked
      then k in Contents(run[m].g) && Contents(run[m + 1].g) == Contents(run[m].g)[k := v]
      else Contents(run[m + 1].g) == Contents(run[m].g)
    ensures d.Swapped? ==> run[m].g.nodes[d.n].key == k
  {
    hide Contents, ListInv, ThreadOk, Enabled, Outcome;
    var a :| Next(run[m], t, a, run[m + 1]) && Does(run[m].g, run[m].threads[t], a, d);
    AlwaysInv(run, m);
    MapStep(run[m], t, a, run[m + 1]);
    if d.Swapped? {
      var g, th := run[m].g, run[m].threads[t];
      assert ListInv(g) && ThreadOk(g, th);
      UpdateNode(g, th);
      TargetIsData(g, th);
    }
  }

  lemma SwapExplained(run: seq<State>, i: nat, t: Tid, th: Thread, n: Ptr)
    requires Behavior(run) && i < |run| && OwnSwap(run, i, t, th, n)
    ensures Replaced(run, i, t, th, n)
  {
    hide Contents, Behavior, Did, WasLive, Dies;
    OwnMapStep(run, t, th.point, th.key, th.val, Swapped(n));
    if run[th.point].g.nodes[n].marked {
      CellHistory(run, th.point, n);
      DiedSince(run, th.begin, th.point, n, run[th.point].g.cells[n].died, th.key);
    }
  }

  lemma LateExplained(run: seq<State>, t: Tid, begin: nat, i: nat, k: real, v: Value)
    requires Behavior(run) && WasLate(run, t, begin, i, k, v)
    ensures ReadLate(run, t, begin, i, k, v)
  {
    hide Behavior, Dies, WasLive;
    var l :| LateWrite(run, t, begin, i, k, v, l);
    ClockIsIndex(run, l.w);
    AlwaysWitnessed(run, l.w, l.u);
    AlwaysInv(run, l.w);
    assert ThreadOk(run[l.w].g, run[l.w].threads[l.u]);
    UpdateNode(run[l.w].g, run[l.w].threads[l.u]);
    DiedSince(run, run[l.w].threads[l.u].begin, l.w, l.n, l.m, k);
  }

  lemma AbsentMeans(run: seq<State>, begin: nat, i: nat, k: real)
    requires WasOut(run, begin, i, k)
    ensures WasAbsent(run, begin, i, k)
  {
    var j: nat :| Within(run, begin, j, i) && k !in Keys(run[j].g.nodes);
    assert k !in Contents(run[j].g);
  }

  // The answer is the one the abstract map would give.
  ghost predicate Right(run: seq<State>, i: nat, t: Tid, th: Thread)
    requires th.pc.Returned?
  {
    match (th.pc.goal, th.pc.ok)
    case (Insert, true) => Inserted(run, i, t, th)
    case (Insert, false) => exists n :: Replaced(run, i, t, th, n)
    case (Remove, true) => Removed(run, i, t, th)
    case (Remove, false) => WasAbsent(run, th.begin, i, th.key)
    case (Get, true) => WasEntry(run, th.begin, i, th.key, th.got) || ReadLate(run, t, th.begin, i, th.key, th.got)
    case (Get, false) => WasAbsent(run, th.begin, i, th.key)
    case _ => false
  }

  predicate NotFound(pc: Pc) {
    pc == Returned(Remove, false) || pc == Returned(Get, false)
  }

  // Linearizability: an answer that claims a change is explained by the
  // operation's own step, which made exactly that change; an answer that claims
  // none is the right one at an instant between begin and answer.  The exception
  // is a "not found" after a search that entered level 0 at a dead node.
  lemma Linearizable(run: seq<State>, i: nat, t: Tid)
    requires Behavior(run) && i < |run| && t in run[i].threads && run[i].threads[t].pc.Returned?
    ensures var th := run[i].threads[t];
            Right(run, i, t, th) || (NotFound(th.pc) && DeadStart(run, t, th.begin, i))
  {
    hide Behavior, ListInv, Right, Complete, DeadStart, Deeds, Windows;
    var th := run[i].threads[t];
    AlwaysInv(run, i);
    ClockIsIndex(run, i);
    AlwaysStarts(run, i, t);
    RightUnlessStale(run, i, t);
    assert ThreadOk(run[i].g, th);
  }

  lemma RightUnlessStale(run: seq<State>, i: nat, t: Tid)
    requires Behavior(run) && i < |run| && t in run[i].threads && run[i].threads[t].pc.Returned?
    ensures Right(run, i, t, run[i].threads[t]) || (NotFound(run[i].threads[t].pc) && run[i].threads[t].stale)
  {
    hide Behavior, ListInv, Right, Deeds, Windows;
    var th := run[i].threads[t];
    AlwaysInv(run, i);
    ClockIsIndex(run, i);
    AlwaysWitnessed(run, i, t);
    assert ThreadOk(run[i].g, th);
    if !NotFound(th.pc) {
      ChangeExplained(run, i, t, th);
    } else if !th.stale {
      AbsenceExplained(run, i, t, th);
    }
  }

  lemma ChangeExplained(run: seq<State>, i: nat, t: Tid, th: Thread)
    requires Behavior(run) && i < |run| && Deeds(run, i, t, th) && Justified(th)
    requires th.pc.Returned? && !NotFound(th.pc)
    ensures Right(run, i, t, th)
  {
    hide Behavior, WasEntry, WasLate, ReadLate, Did, Contents;
    match (th.pc.goal, th.pc.ok)
    case (Insert, true) => OwnMapStep(run, t, th.point, th.key, th.val, Published);
    case (Remove, true) => OwnMapStep(run, t, th.point, th.key, th.val, Marked);
    case (Insert, false) =>
      var n :| OwnSwap(run, i, t, th, n);
      SwapExplained(run, i, t, th, n);
    case (Get, true) =>
      if WasLate(run, t, th.begin, i, th.key, th.got) { LateExplained(run, t, th.begin, i, th.key, th.got); }
    case _ =>
  }

  lemma AbsenceExplained(run: seq<State>, i: nat, t: Tid, th: Thread)
    requires i < |run| && Windows(run, i, th) && Justified(th) && NotFound(th.pc) && !th.stale
    ensures Right(run, i, t, th)
  {
    hide WasOut, WasIn, WasAbsent, WasLinked, WasLive;
    AbsentMeans(run, th.begin, i, th.key);
  }
}
