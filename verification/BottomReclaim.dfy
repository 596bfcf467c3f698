/** The list and epoch-based reclamation together: while its guard lives, an
  * operation holds no freed node.
  */
module BottomReclaim {
  import opened BottomList
  import opened BottomSteps
  import opened BottomLinear
  import opened BottomHandover
  import Ebr

  // The nodes an operation holds pointers to.  (The start of a search is looked
  // at again when it enters level 0.)
  function Pointers(pc: Pc): set<Ptr> {
    match pc
    case Load(goal, pred, curr) => {pred, curr} + Sought(goal)
    case Splice(goal, pred, curr, succ) => {pred, curr, succ} + Sought(goal)
    case Publish(pred, succ) => {pred, succ}
    case Update(node) => {node}
    case ReadMark(node) => {node}
    case LoadValue(node) => {node}
    case LoadSucc(node) => {node}
    case Mark(node, succ) => {node, succ}
    case Recheck(node) => {node}
    case CountSub(node) => {node}
    case Retire(node) => {node}
    case _ => {}
  }

  function Sought(goal: Goal): set<Ptr> {
    if goal.Unlink? then {goal.victim} else {}
  }

  lemma SplicePassed(g: Shared, th: Thread)
    requires ThreadOk(g, th) && th.pc.Splice? && !th.stale
    ensures th.pc.succ in th.reached || th.pc.curr == TAIL
  {
    assert PassedOver(g.nodes, th.reached, th.key, th.seenOut, th.pc.curr);
  }

  // Unless the search started at a dead node, the thread's history has every register.
  lemma RegistersReached(g: Shared, th: Thread, p: Ptr)
    requires ListInv(g) && ThreadOk(g, th) && p in Pointers(th.pc) && !th.stale
    ensures p in th.reached && Active(th) && Entered(th)
  {
    hide Present, Bypassed, Shape, CellsOk;
    if th.pc.Splice? {
      SplicePassed(g, th);
      TailUnmarked(g);
    }
  }

  lemma TailUnmarked(g: Shared)
    requires ListInv(g)
    ensures TAIL in g.nodes && !g.nodes[TAIL].marked
  {
  }

  lemma HasRegisters(pc: Pc, p: Ptr)
    requires p in Pointers(pc)
    ensures !pc.Idle? && !pc.Returned? && !pc.Route?
  {
  }

  // Every pointer in the registers of a running operation was on the chain since
  // the operation began, unless its search started at a dead node.
  lemma RegistersWereLinked(run: seq<State>, i: nat, t: Tid, p: Ptr)
    requires Behavior(run) && i < |run| && t in run[i].threads && p in Pointers(run[i].threads[t].pc)
    ensures var th := run[i].threads[t];
            WasLinked(run, th.begin, i, p) || DeadStart(run, t, Since(th), i)
  {
    hide Behavior, ListInv, ThreadOk, WasLinked, DeadStart, Deeds, Complete, Pointers;
    var th := run[i].threads[t];
    AlwaysInv(run, i);
    ClockIsIndex(run, i);
    AlwaysWitnessed(run, i, t);
    AlwaysStarts(run, i, t);
    assert ListInv(run[i].g) && ThreadOk(run[i].g, th);
    HasRegisters(th.pc, p);
    if !th.stale {
      RegistersReached(run[i].g, th, p);
      assert WasLinked(run, th.begin, i, p);
    }
  }

  // ---------------------------------------------------------------------------
  // Together with the epochs
  // ---------------------------------------------------------------------------

  // `when[j]` is where the run of the epochs stands when the list is in its `j`th
  // state; `others` are the objects that are not nodes.
  ghost predicate Aligned(run: seq<State>, ebr: seq<Ebr.State>, when: seq<nat>, others: set<Ebr.Obj>) {
    && |when| == |run|
    && (forall j :: 0 <= j < |when| ==> when[j] < |ebr|)
    && (forall j, k :: 0 <= j <= k < |when| ==> when[j] <= when[k])
    && (forall j {:trigger Owned(run[j].g, ebr[when[j]].g, others)} :: 0 <= j < |run| ==>
          Owned(run[j].g, ebr[when[j]].g, others))
  }

  // `retire` is called for a node by the list's own hand-over only.
  ghost predicate Owned(g: Shared, e: Ebr.Shared, others: set<Ebr.Obj>) {
    && (forall p :: p in g.nodes ==> p !in others)
    && (forall p {:trigger p in e.ledger} :: p in e.ledger && e.ledger[p].tag != -1 && p !in others ==> p in g.retired)
  }

  lemma LinkedNotRetired(g: Shared, e: Ebr.Shared, others: set<Ebr.Obj>, p: Ptr)
    requires ListInv(g) && Owned(g, e, others) && p in g.linked
    ensures p in g.rushed || p !in e.ledger || e.ledger[p].tag == -1
  {
    if p in e.ledger && e.ledger[p].tag != -1 {
      var k :| 0 <= k < |g.retired| && g.retired[k] == p;
    }
  }

  // An operation runs under a guard: no node in its level 0 registers is freed, unless
  // its search, or the search of the operation that removed the node, started at
  // a dead node.
  lemma RegistersNotFreed(
    run: seq<State>, ebr: seq<Ebr.State>, when: seq<nat>, others: set<Ebr.Obj>, i: nat, t: Tid, guard: Ebr.Id, p: Ptr)
    requires Behavior(run) && Ebr.Behavior(ebr) && Aligned(run, ebr, when, others) && i < |run|
    requires t in run[i].threads && p in Pointers(run[i].threads[t].pc) && run[i].threads[t].begin <= i
    requires Ebr.LiveThroughout(ebr, guard, when[run[i].threads[t].begin], when[i])
    requires ebr[when[i]].g.epoch < Ebr.UNPINNED
    ensures p !in ebr[when[i]].g.freed || DeadStart(run, t, Since(run[i].threads[t]), i) || Rushed(run, i, p)
  {
    hide Behavior, Ebr.Behavior, ListInv, DeadStart, Rushed, Pointers;
    var th := run[i].threads[t];
    RegistersWereLinked(run, i, t, p);
    if WasLinked(run, th.begin, i, p) {
      var j: nat :| Within(run, th.begin, j, i) && p in run[j].g.linked;
      AlwaysInv(run, j);
      assert Owned(run[j].g, ebr[when[j]].g, others);
      LinkedNotRetired(run[j].g, ebr[when[j]].g, others, p);
      if p in run[j].g.rushed {
        RushedMeans(run, j, p);
        RushedGrows(run, j, i, p);
      } else {
        Ebr.GracePeriod(ebr, guard, when[j], when[i], p);
      }
    }
  }

  lemma RushedGrows(run: seq<State>, j: nat, i: nat, p: Ptr)
    requires j <= i < |run| && Rushed(run, j, p)
    ensures Rushed(run, i, p)
  {
    hide DeadStart;
    var m, t :| Rushes(run, j, p, m, t);
    assert Rushes(run, i, p, m, t);
  }
}
