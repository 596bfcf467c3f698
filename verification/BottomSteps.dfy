/** Every step of every thread keeps the invariant of the bottom level.
  */
module BottomSteps {
  import opened BottomList

  // ---------------------------------------------------------------------------
  // The thread that moves
  // ---------------------------------------------------------------------------

  lemma AfterLoadInv(nodes: Heap, linked: set<Ptr>, retired: seq<Ptr>, th: Thread)
    requires Shape(nodes, linked) && th.pc.Load?
    requires Base(nodes, linked, th) && PcInv(nodes, linked, retired, th)
    ensures var th' := th.(pc := AfterLoad(th, nodes[th.pc.curr]));
            && Justified(th') && (Active(th') ==> PcInv(nodes, linked, retired, th'))
            && Victim(th'.pc) == Victim(th.pc)
  {
    var Load(goal, pred, curr) := th.pc;
    assert curr != TAIL ==> Up(nodes, curr);
    if !th.stale {
      assert PassedOver(nodes, th.reached, th.key, th.seenOut, curr);
      if goal.Unlink? { assert Skips(nodes, curr, goal.victim) ==> goal.victim !in linked; }
    }
    if !nodes[curr].marked && nodes[curr].key == th.key { assert Holds(nodes, curr, th.key); }
  }

  lemma EnterInv(nodes: Heap, linked: set<Ptr>, retired: seq<Ptr>, th: Thread)
    requires Shape(nodes, linked) && th.pc.Route?
    requires Base(nodes, linked, th) && PcInv(nodes, linked, retired, th)
    ensures PcInv(nodes, linked, retired, th.(pc := Load(th.pc.goal, th.pc.start, nodes[th.pc.start].next),
                                              stale := th.pc.start !in th.reached))
  {
    var Route(goal, start) := th.pc;
    assert Up(nodes, start);
    if start in th.reached {
      assert PassedOver(nodes, th.reached, th.key, th.seenOut, start);
      if goal.Unlink? { assert Skips(nodes, start, goal.victim) ==> goal.victim !in linked; }
    }
  }

  lemma SpliceInv(nodes: Heap, linked: set<Ptr>, retired: seq<Ptr>, th: Thread)
    requires Shape(nodes, linked) && th.pc.Splice? && CasOk(nodes, th.pc.pred, th.pc.curr)
    requires Base(nodes, linked, th) && PcInv(nodes, linked, retired, th)
    ensures var Splice(goal, pred, curr, succ) := th.pc;
            var nodes' := nodes[pred := nodes[pred].(next := succ)];
            var th' := Look(th.(pc := Load(goal, pred, succ)), nodes', linked - {curr});
            Base(nodes', linked - {curr}, th') && PcInv(nodes', linked - {curr}, retired, th')
  {
    var Splice(goal, pred, curr, succ) := th.pc;
    var nodes' := nodes[pred := nodes[pred].(next := succ)];
    SpliceKeepsShape(nodes, linked, pred, curr, succ);
    BaseKept(nodes, linked, nodes', linked - {curr}, th);
    PcKept(nodes, linked, nodes', linked - {curr}, retired, th);
    assert Up(nodes, curr);
    if !th.stale {
      assert PassedOver(nodes, th.reached, th.key, th.seenOut, curr);
      if goal.Unlink? { assert Skips(nodes, curr, goal.victim) ==> goal.victim !in linked; }
    }
  }

  lemma PublishInv(nodes: Heap, linked: set<Ptr>, retired: seq<Ptr>, th: Thread, n: Ptr)
    requires Shape(nodes, linked) && th.pc.Publish? && CasOk(nodes, th.pc.pred, th.pc.succ) && n !in nodes && n != NULL
    requires Base(nodes, linked, th) && PcInv(nodes, linked, retired, th)
    ensures var Publish(pred, succ) := th.pc;
            var nodes' := nodes[n := Node(th.key, succ, false)][pred := nodes[pred].(next := n)];
            Base(nodes', linked + {n}, Look(th, nodes', linked + {n}))
  {
    var Publish(pred, succ) := th.pc;
    PublishKeepsShape(nodes, linked, pred, succ, n, th.key);
    BaseKept(nodes, linked, nodes[n := Node(th.key, succ, false)][pred := nodes[pred].(next := n)], linked + {n}, th);
  }

  lemma RelyRefl(nodes: Heap, linked: set<Ptr>)
    requires Shape(nodes, linked)
    ensures Rely(nodes, linked, nodes, linked)
  {
  }

  lemma CellsKept(g: Shared, th: Thread, a: Action)
    requires CellsOk(g.nodes, g.cells) && Enabled(g, th, a)
    ensures var g' := Outcome(g, th, a).1; CellsOk(g'.nodes, g'.cells)
  {
    var g' := Outcome(g, th, a).1;
    forall p | p in g'.nodes ensures CellOk(g'.nodes, g'.cells, p) {
      assert p in g.nodes ==> CellOk(g.nodes, g.cells, p);
    }
  }

  lemma ShapeKept(g: Shared, th: Thread, a: Action)
    requires ListInv(g) && ThreadOk(g, th) && Enabled(g, th, a)
    ensures var g' := Outcome(g, th, a).1;
            Shape(g'.nodes, g'.linked) && Rely(g.nodes, g.linked, g'.nodes, g'.linked)
  {
    hide Retired, CellsOk;
    RelyRefl(g.nodes, g.linked);
    if a.Go? {
      match th.pc
      case Splice(_, pred, curr, succ) =>
        if CasOk(g.nodes, pred, curr) { SpliceKeepsShape(g.nodes, g.linked, pred, curr, succ); }
      case Publish(pred, succ) =>
        if CasOk(g.nodes, pred, succ) { PublishKeepsShape(g.nodes, g.linked, pred, succ, a.memory, th.key); }
      case Mark(node, succ) =>
        if CasOk(g.nodes, node, succ) { MarkKeepsShape(g.nodes, g.linked, node); }
      case _ =>
    }
  }

  lemma RetiredKept(g: Shared, th: Thread, a: Action)
    requires ListInv(g) && ThreadOk(g, th) && Enabled(g, th, a)
    requires var g' := Outcome(g, th, a).1; Rely(g.nodes, g.linked, g'.nodes, g'.linked)
    ensures var g' := Outcome(g, th, a).1;
            && Retired(g'.nodes, g'.linked, g'.retired, g'.rushed)
            && (g'.retired != g.retired ==> Victim(th.pc) != NULL && g'.retired == g.retired + [Victim(th.pc)])
  {
    hide CellsOk, Base, Bypassed;
  }

  // Every step keeps the chain sorted and complete, and freezes marked links.
  lemma ListKept(g: Shared, th: Thread, a: Action)
    requires ListInv(g) && ThreadOk(g, th) && Enabled(g, th, a)
    ensures var g' := Outcome(g, th, a).1;
            && ListInv(g') && Rely(g.nodes, g.linked, g'.nodes, g'.linked)
            && (g'.retired != g.retired ==> Victim(th.pc) != NULL && g'.retired == g.retired + [Victim(th.pc)])
  {
    hide Outcome, Shape, Rely, Retired, CellsOk, ThreadOk;
    CellsKept(g, th, a);
    ShapeKept(g, th, a);
    RetiredKept(g, th, a);
  }

  // A compare-and-swap that marks `v` starts the search that will unlink it.
  lemma MarkInv(nodes: Heap, linked: set<Ptr>, retired: seq<Ptr>, th: Thread, clock: nat)
    requires Shape(nodes, linked) && forall x :: x in retired ==> x in nodes && nodes[x].marked
    requires th.pc.Mark? && CasOk(nodes, th.pc.node, th.pc.succ) && th.begin <= clock
    requires Base(nodes, linked, th) && PcInv(nodes, linked, retired, th)
    ensures var v := th.pc.node;
            var nodes' := nodes[v := nodes[v].(marked := true)];
            var th' := Look(th.(pc := Route(Unlink(v), HEAD), point := clock, reached := linked), nodes', linked);
            Base(nodes', linked, th') && PcInv(nodes', linked, retired, th')
  {
    var v := th.pc.node;
    var nodes' := nodes[v := nodes[v].(marked := true)];
    MarkKeepsShape(nodes, linked, v);
    BaseFromChain(nodes', linked, th.(pc := Route(Unlink(v), HEAD), point := clock, reached := linked));
    ChainBypasses(nodes', linked, v);
  }

  ghost predicate MovedOk(g: Shared, th: Thread, a: Action)
    requires Enabled(g, th, a)
  {
    var (th', g') := Outcome(g, th, a);
    ThreadOk(g'.(clock := g.clock + 1), Observe(th', g'.nodes, g'.linked))
  }

  lemma RouteKept(g: Shared, th: Thread, a: Action)
    requires ListInv(g) && ThreadOk(g, th) && Enabled(g, th, a) && !a.Go?
    ensures MovedOk(g, th, a)
  {
    RelyRefl(g.nodes, g.linked);
    var th1 := Outcome(g, th, a).0;
    if a.Begin? {
      BaseFromChain(g.nodes, g.linked, th1);
    } else {
      if a.Enter? { EnterInv(g.nodes, g.linked, g.retired, th); }
      BaseKept(g.nodes, g.linked, g.nodes, g.linked, th1);
      PcKept(g.nodes, g.linked, g.nodes, g.linked, g.retired, th1);
    }
  }

  lemma LoadKept(g: Shared, th: Thread, n: Ptr)
    requires ListInv(g) && ThreadOk(g, th) && Enabled(g, th, Go(n)) && th.pc.Load?
    ensures MovedOk(g, th, Go(n))
  {
    RelyRefl(g.nodes, g.linked);
    AfterLoadInv(g.nodes, g.linked, g.retired, th);
    var th1 := Advance(g, th, n).0;
    if Active(th1) {
      BaseKept(g.nodes, g.linked, g.nodes, g.linked, th1);
      PcKept(g.nodes, g.linked, g.nodes, g.linked, g.retired, th1);
    }
  }

  lemma SpliceWon(g: Shared, th: Thread, n: Ptr)
    requires ListInv(g) && ThreadOk(g, th) && Enabled(g, th, Go(n)) && th.pc.Splice?
    requires CasOk(g.nodes, th.pc.pred, th.pc.curr)
    ensures MovedOk(g, th, Go(n))
  {
    hide Retired, CellsOk, Bypassed;
    SpliceInv(g.nodes, g.linked, g.retired, th);
  }

  lemma SpliceLost(g: Shared, th: Thread, n: Ptr)
    requires ListInv(g) && ThreadOk(g, th) && Enabled(g, th, Go(n)) && th.pc.Splice?
    requires !CasOk(g.nodes, th.pc.pred, th.pc.curr)
    ensures MovedOk(g, th, Go(n))
  {
    hide Retired, CellsOk, Bypassed;
    RelyRefl(g.nodes, g.linked);
    BaseKept(g.nodes, g.linked, g.nodes, g.linked, th);
    PcKept(g.nodes, g.linked, g.nodes, g.linked, g.retired, th);
  }

  lemma PublishKept(g: Shared, th: Thread, n: Ptr)
    requires ListInv(g) && ThreadOk(g, th) && Enabled(g, th, Go(n)) && th.pc.Publish?
    ensures MovedOk(g, th, Go(n))
  {
    if CasOk(g.nodes, th.pc.pred, th.pc.succ) {
      PublishInv(g.nodes, g.linked, g.retired, th, n);
    } else {
      RelyRefl(g.nodes, g.linked);
      BaseKept(g.nodes, g.linked, g.nodes, g.linked, th);
    }
  }

  lemma MarkKept(g: Shared, th: Thread, n: Ptr)
    requires ListInv(g) && ThreadOk(g, th) && Enabled(g, th, Go(n)) && th.pc.Mark?
    ensures MovedOk(g, th, Go(n))
  {
    if CasOk(g.nodes, th.pc.node, th.pc.succ) {
      MarkInv(g.nodes, g.linked, g.retired, th, g.clock);
    } else {
      RelyRefl(g.nodes, g.linked);
      BaseKept(g.nodes, g.linked, g.nodes, g.linked, th);
    }
  }

  lemma TargetKept(g: Shared, th: Thread, n: Ptr)
    requires ListInv(g) && ThreadOk(g, th) && Enabled(g, th, Go(n))
    requires th.pc.Update? || th.pc.ReadMark? || th.pc.LoadValue? || th.pc.LoadSucc? || th.pc.Recheck?
    ensures MovedOk(g, th, Go(n))
  {
    hide Retired, CellsOk, Bypassed;
    RelyRefl(g.nodes, g.linked);
    BaseKept(g.nodes, g.linked, g.nodes, g.linked, th);
    assert PassedOver(g.nodes, th.reached, th.key, th.seenOut, th.pc.node);
  }

  lemma CountKept(g: Shared, th: Thread, n: Ptr)
    requires ListInv(g) && ThreadOk(g, th) && Enabled(g, th, Go(n))
    requires th.pc.CountAdd? || th.pc.CountSub? || th.pc.Retire?
    ensures MovedOk(g, th, Go(n))
  {
    hide Retired, CellsOk, Bypassed;
    RelyRefl(g.nodes, g.linked);
    BaseKept(g.nodes, g.linked, g.nodes, g.linked, th);
  }

  lemma SelfKept(g: Shared, th: Thread, a: Action)
    requires ListInv(g) && ThreadOk(g, th) && Enabled(g, th, a)
    ensures MovedOk(g, th, a)
  {
    hide ListInv, ThreadOk, MovedOk;
    if !a.Go? { RouteKept(g, th, a); }
    else if th.pc.Load? { LoadKept(g, th, a.memory); }
    else if th.pc.Splice? {
      if CasOk(g.nodes, th.pc.pred, th.pc.curr) { SpliceWon(g, th, a.memory); } else { SpliceLost(g, th, a.memory); }
    }
    else if th.pc.Publish? { PublishKept(g, th, a.memory); }
    else if th.pc.Mark? { MarkKept(g, th, a.memory); }
    else if th.pc.CountAdd? || th.pc.CountSub? || th.pc.Retire? { CountKept(g, th, a.memory); }
    else { TargetKept(g, th, a.memory); }
  }

  lemma OtherKept(g: Shared, g': Shared, th: Thread)
    requires ListInv(g) && ListInv(g') && Rely(g.nodes, g.linked, g'.nodes, g'.linked) && g.clock <= g'.clock
    requires ThreadOk(g, th)
    requires g'.retired == g.retired ||
             exists v :: v != Victim(th.pc) && g'.retired == g.retired + [v]
    ensures ThreadOk(g', Observe(th, g'.nodes, g'.linked))
  {
    if Active(th) {
      BaseKept(g.nodes, g.linked, g'.nodes, g'.linked, th);
      PcKept(g.nodes, g.linked, g'.nodes, g'.linked, g.retired, th);
    }
  }

  // A step keeps the thread's victim, drops it, or takes a node that was unmarked.
  lemma VictimMoves(g: Shared, th: Thread, a: Action)
    requires ListInv(g) && ThreadOk(g, th) && Enabled(g, th, a)
    ensures var v := Victim(Outcome(g, th, a).0.pc);
            v == NULL || v == Victim(th.pc) || (v in g.nodes && !g.nodes[v].marked)
  {
    if a.Go? && th.pc.Load? { AfterLoadInv(g.nodes, g.linked, g.retired, th); }
  }

  lemma VictimMarked(g: Shared, th: Thread)
    requires ThreadOk(g, th) && Victim(th.pc) != NULL
    ensures Victim(th.pc) in g.nodes && g.nodes[Victim(th.pc)].marked
  {
  }

  lemma ClockAfter(g: Shared, th: Thread, a: Action)
    requires Enabled(g, th, a)
    ensures Outcome(g, th, a).1.clock == g.clock
  {
  }

  lemma ThreadsKept(s: State, t: Tid, a: Action, s': State, u: Tid)
    requires Inv(s) && Next(s, t, a, s') && u in s.threads
    ensures ThreadOk(s'.g, s'.threads[u])
  {
    hide Shape, Retired, CellsOk, Rely, Enabled, Outcome;
    ListKept(s.g, s.threads[t], a);
    ClockAfter(s.g, s.threads[t], a);
    if u == t {
      SelfKept(s.g, s.threads[t], a);
    } else {
      assert ThreadOk(s.g, s.threads[u]);
      OtherKept(s.g, s'.g, s.threads[u]);
    }
  }

  lemma VictimsKept(s: State, t: Tid, a: Action, s': State, u: Tid)
    requires Inv(s) && Next(s, t, a, s') && u in s.threads && u != t
    ensures Victim(s'.threads[u].pc) == Victim(s.threads[u].pc)
    ensures Victim(s'.threads[u].pc) != NULL ==> Victim(s'.threads[t].pc) != Victim(s'.threads[u].pc)
  {
    VictimMoves(s.g, s.threads[t], a);
    if Victim(s.threads[u].pc) != NULL { VictimMarked(s.g, s.threads[u]); }
  }

  lemma StepKeepsInv(s: State, t: Tid, a: Action, s': State)
    requires Inv(s) && Next(s, t, a, s')
    ensures Inv(s')
  {
    hide Shape, Retired, CellsOk, Rely, Enabled, Outcome, ThreadOk;
    ListKept(s.g, s.threads[t], a);
    forall u | u in s'.threads ensures ThreadOk(s'.g, s'.threads[u]) { ThreadsKept(s, t, a, s', u); }
    forall u | u in s'.threads && u != t
      ensures Victim(s'.threads[u].pc) == Victim(s.threads[u].pc)
      ensures Victim(s'.threads[u].pc) != NULL ==> Victim(s'.threads[t].pc) != Victim(s'.threads[u].pc)
    {
      VictimsKept(s, t, a, s', u);
    }
  }

  lemma {:induction false} AlwaysInv(run: seq<State>, i: nat)
    requires Behavior(run) && i < |run|
    ensures Inv(run[i])
  {
    if i == 0 {
      var g := run[0].g;
      forall p, q | p in g.linked && q in g.linked ensures Ordered(g.nodes, p, q) {}
      assert Up(g.nodes, HEAD) && Stays(g.nodes, g.linked, HEAD);
    } else {
      AlwaysInv(run, i - 1);
      assert StepAt(run, i - 1);
      var t, a :| Next(run[i - 1], t, a, run[i]);
      StepKeepsInv(run[i - 1], t, a, run[i]);
    }
  }
}
