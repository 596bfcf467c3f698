/** Lock freedom: in every infinite run in which no mark is written over, operations
  * return again and again, whatever the threads do to each other.
  *
  * While none returns, three quantities fall in turn: what the operations under way
  * have still to link and to mark, how much is still to be unlinked, and how far the
  * operations are from their ends.
  */
module TowerLockFree {
  import opened Common
  import Bits
  import opened BottomList
  import opened BottomSteps
  import opened BottomCalls
  import opened Tower
  import opened TowerClean
  import opened TowerFilm
  import opened TowerRank
  import opened TowerProgress
  import opened TowerFinish

  // ---------------------------------------------------------------------------
  // What is still to be linked and marked
  // ---------------------------------------------------------------------------

  // An insert that has not published, a remove that has not marked.
  predicate Unpublished(pc: Pc) {
    match pc
    case Route(goal, _) => goal.Insert?
    case Load(goal, _, _) => goal.Insert?
    case Splice(goal, _, _, _) => goal.Insert?
    case Publish(_, _) => true
    case _ => false
  }

  predicate Unmarking(pc: Pc) {
    match pc
    case Route(goal, _) => goal.Remove?
    case Load(goal, _, _) => goal.Remove?
    case Splice(goal, _, _, _) => goal.Remove?
    case LoadSucc(_) => true
    case Mark(_, _) => true
    case Recheck(_) => true
    case _ => false
  }

  // The links an operation will still make, and the marks others may then set on them.
  function Due(pc: Pc, reg: Reg): nat {
    if Linking(pc, reg) then (if reg.rung <= reg.top then reg.top - reg.rung + 1 else 0)
    else if Unpublished(pc) then 2 * reg.top + 1
    else if Unmarking(pc) then 1
    else 0
  }

  // The upper links that are not marked.
  function Unflagged(up: Towers): set<(Ptr, nat)> {
    set p, l: nat | p in up && 0 <= l < |up[p]| && !up[p][l].marked :: (p, l)
  }

  // The compare-and-swaps that publish, link and mark.
  predicate Publishing(g: Shared, th: Thread, reg: Reg, a: Act) {
    a.Move? && reg.phase.Below? && th.pc.Publish? && CasOk(g.nodes, th.pc.pred, th.pc.succ)
  }

  predicate Marking(g: Shared, th: Thread, reg: Reg, a: Act) {
    a.Move? && reg.phase.Below? && th.pc.Mark? && CasOk(g.nodes, th.pc.node, th.pc.succ)
  }

  predicate Flagging(th: Thread, reg: Reg, up: Towers, a: Act) {
    && a.Move? && reg.phase.Flag? && th.pc.LoadSucc? && Has(up, th.pc.node, reg.phase.level)
    && At(up, th.pc.node, reg.phase.level) == Link(reg.phase.succ, false)
  }

  ghost predicate DueFalls(m: nat, g: Shared, th: Thread, reg: Reg, up: Towers, a: Act)
    requires Ready(m, g, th, reg, up, a)
  {
    var (b, reg', _) := Effect(m, g, th, reg, up, a);
    && Enabled(g, th, b)
    && var before, after := Due(th.pc, reg), Due(Outcome(g, th, b).0.pc, reg');
    && after <= before && (Joins(g, th, reg, up, a) || Marking(g, th, reg, a) ==> after < before)
    && (Publishing(g, th, reg, a) ==> after + reg.top < before)
  }

  lemma SearchDue(m: nat, g: Shared, th: Thread, reg: Reg, up: Towers, a: Act)
    requires MoverOk(m, g, th, reg, up) && Ready(m, g, th, reg, up, a) && StepUp(m, g, th, reg, up, a)
    requires a.Move? && (reg.phase.Descend? || reg.phase.Walk? || reg.phase.Cut?)
    ensures DueFalls(m, g, th, reg, up, a)
  {
    hide ListInv, ThreadOk, TowersOk, Noted, Put, Advance;
  }

  lemma LinkDue(m: nat, g: Shared, th: Thread, reg: Reg, up: Towers, a: Act)
    requires MoverOk(m, g, th, reg, up) && Ready(m, g, th, reg, up, a) && StepUp(m, g, th, reg, up, a)
    requires a.Move? && (reg.phase.Store? || reg.phase.Join?)
    ensures DueFalls(m, g, th, reg, up, a)
  {
    hide ListInv, ThreadOk, TowersOk, Noted, Put, Advance;
  }

  lemma LookDue(m: nat, g: Shared, th: Thread, reg: Reg, up: Towers, a: Act)
    requires MoverOk(m, g, th, reg, up) && Ready(m, g, th, reg, up, a) && StepUp(m, g, th, reg, up, a)
    requires a.Move? && (reg.phase.Look? || reg.phase.Flag?)
    ensures DueFalls(m, g, th, reg, up, a)
  {
    hide ListInv, ThreadOk, TowersOk, Noted, Put, Advance;
  }

  // How a step on level 0 moves an operation.
  ghost predicate DueMoves(m: nat, g: Shared, th: Thread, reg: Reg, up: Towers, n: Ptr)
    requires Enabled(g, th, Go(n))
  {
    var pc' := Outcome(g, th, Go(n)).0.pc;
    var before, after := Due(th.pc, reg), Due(pc', AfterGo(m, up, reg, th.pc, pc', n));
    && after <= before
    && (th.pc.Mark? && CasOk(g.nodes, th.pc.node, th.pc.succ) ==> after < before)
    && (th.pc.Publish? && CasOk(g.nodes, th.pc.pred, th.pc.succ) ==> after + reg.top < before)
  }

  lemma LoadDue(m: nat, g: Shared, th: Thread, reg: Reg, up: Towers, n: Ptr)
    requires Enabled(g, th, Go(n)) && reg.phase.Below? && th.pc.Load?
    ensures DueMoves(m, g, th, reg, up, n)
  {
    hide CasOk, Counted;
  }

  lemma CasDue(m: nat, g: Shared, th: Thread, reg: Reg, up: Towers, n: Ptr)
    requires Enabled(g, th, Go(n)) && reg.phase.Below? && (th.pc.Splice? || th.pc.Publish? || th.pc.Mark?)
    ensures DueMoves(m, g, th, reg, up, n)
  {
    hide AfterLoad, Counted;
  }

  lemma RestDue(m: nat, g: Shared, th: Thread, reg: Reg, up: Towers, n: Ptr)
    requires Enabled(g, th, Go(n)) && reg.phase.Below?
    requires !th.pc.Load? && !th.pc.Splice? && !th.pc.Publish? && !th.pc.Mark?
    ensures DueMoves(m, g, th, reg, up, n)
  {
    hide AfterLoad, CasOk, Counted;
  }

  lemma StepDue(m: nat, g: Shared, th: Thread, reg: Reg, up: Towers, a: Act)
    requires MoverOk(m, g, th, reg, up) && Ready(m, g, th, reg, up, a) && StepUp(m, g, th, reg, up, a) && a.Move?
    ensures DueFalls(m, g, th, reg, up, a)
  {
    hide MoverOk, StepUp, Outcome, Enabled, CasOk, Due;
    if reg.phase.Descend? || reg.phase.Walk? || reg.phase.Cut? { SearchDue(m, g, th, reg, up, a); }
    else if reg.phase.Store? || reg.phase.Join? { LinkDue(m, g, th, reg, up, a); }
    else if reg.phase.Look? || reg.phase.Flag? { LookDue(m, g, th, reg, up, a); }
    else if th.pc.Load? { LoadDue(m, g, th, reg, up, a.memory); }
    else if th.pc.Splice? || th.pc.Publish? || th.pc.Mark? { CasDue(m, g, th, reg, up, a.memory); }
    else { RestDue(m, g, th, reg, up, a.memory); }
  }

  // ---------------------------------------------------------------------------
  // Marks on upper links
  // ---------------------------------------------------------------------------

  lemma PutUnflagged(up: Towers, p: Ptr, l: nat, link: Link)
    requires Has(up, p, l)
    ensures At(up, p, l).marked == link.marked ==> Unflagged(Put(up, p, l, link)) == Unflagged(up)
    ensures !At(up, p, l).marked && link.marked ==> |Unflagged(Put(up, p, l, link))| < |Unflagged(up)|
  {
    var up' := Put(up, p, l, link);
    if !At(up, p, l).marked && link.marked {
      assert (p, l - 1) in Unflagged(up) && (p, l - 1) !in Unflagged(up');
      Smaller(Unflagged(up'), Unflagged(up), (p, l - 1));
    }
  }

  function Rungs(n: Ptr, top: nat): set<(Ptr, nat)> { set l: nat | 0 <= l < top :: (n, l) }

  lemma {:induction false} RungsSize(n: Ptr, top: nat)
    ensures |Rungs(n, top)| == top
  {
    if top > 0 {
      RungsSize(n, top - 1);
      assert Rungs(n, top) == Rungs(n, top - 1) + {(n, top - 1)};
    }
  }

  lemma NewUnflagged(up: Towers, n: Ptr, tower: seq<Link>)
    requires n !in up
    ensures |Unflagged(up[n := tower])| <= |Unflagged(up)| + |tower|
  {
    var more := Rungs(n, |tower|);
    RungsSize(n, |tower|);
    assert Unflagged(up[n := tower]) <= Unflagged(up) + more;
    Included(Unflagged(up[n := tower]), Unflagged(up) + more);
  }

  // In a clean step only a publish adds unmarked links.
  lemma StepFlags(m: nat, g: Shared, th: Thread, reg: Reg, up: Towers, a: Act)
    requires MoverOk(m, g, th, reg, up) && Ready(m, g, th, reg, up, a) && a.Move?
    requires MarksStay(up, Effect(m, g, th, reg, up, a).2)
    ensures
      var up' := Effect(m, g, th, reg, up, a).2;
      && |Unflagged(up')| <= |Unflagged(up)| + (if Publishing(g, th, reg, a) then reg.top else 0)
      && (Flagging(th, reg, up, a) ==> |Unflagged(up')| < |Unflagged(up)|)
  {
    hide ListInv, ThreadOk, TowersOk, Noted, Put, Outcome, Unflagged, MarksStay, AfterPublish, OwnOk;
    var up' := Effect(m, g, th, reg, up, a).2;
    match reg.phase
    case Cut(l, curr, succ) => PutUnflagged(up, th.pc.start, l, Link(succ, false));
    case Store(l) =>
      PutUnflagged(up, reg.node, l, Link(reg.succs[l - 1], false));
      StaysUnmarked(up, reg.node, l, Link(reg.succs[l - 1], false));
    case Join(l) => PutUnflagged(up, reg.preds[l - 1], l, Link(reg.node, false));
    case Flag(l, succ) => PutUnflagged(up, th.pc.node, l, Link(succ, true));
    case Below => PublishFlags(m, g, th, reg, up, a.memory);
    case _ =>
  }

  lemma StaysUnmarked(up: Towers, p: Ptr, l: nat, link: Link)
    requires Has(up, p, l) && !link.marked && MarksStay(up, Put(up, p, l, link))
    ensures !At(up, p, l).marked
  {
  }

  lemma PublishFlags(m: nat, g: Shared, th: Thread, reg: Reg, up: Towers, n: Ptr)
    requires TowersOk(m, g.nodes, up) && reg.top <= |reg.succs| && Enabled(g, th, Go(n))
    ensures
      var up' := AfterPublish(g, th, reg, up, n);
      && (th.pc.Publish? && CasOk(g.nodes, th.pc.pred, th.pc.succ) ==> |Unflagged(up')| <= |Unflagged(up)| + reg.top)
      && (!(th.pc.Publish? && CasOk(g.nodes, th.pc.pred, th.pc.succ)) ==> up' == up)
  {
    hide Unflagged;
    if th.pc.Publish? && CasOk(g.nodes, th.pc.pred, th.pc.succ) {
      NewUnflagged(up, n, AfterPublish(g, th, reg, up, n)[n]);
    }
  }

  // ---------------------------------------------------------------------------
  // What is still to be unlinked
  // ---------------------------------------------------------------------------

  // For every linked node, what lies ahead of its link: on the upper levels, and on level 0.
  function AheadAbove(nodes: Heap, up: Towers, ranks: Ranks): set<(nat, Ptr, Ptr)> {
    set l: nat, p, x |
      1 <= l <= |ranks| && p in ranks[l - 1].Keys + {HEAD} && Has(up, p, l)
      && x in Onward(nodes, ranks, l, At(up, p, l).next) :: (l, p, x)
  }

  function AheadBelow(nodes: Heap): set<(Ptr, Ptr)> {
    set p, x | p in nodes && x in Larger(nodes, nodes[p].next) :: (p, x)
  }

  ghost function Unlinking(nodes: Heap, up: Towers, ranks: Ranks): nat {
    |AheadAbove(nodes, up, ranks)| + |AheadBelow(nodes)|
  }

  lemma CutUnlinks(nodes: Heap, up: Towers, ranks: Ranks, p: Ptr, l: nat, curr: Ptr, succ: Ptr)
    requires Has(up, p, l) && Entry(ranks, l, p) && 1 <= l <= |ranks| && At(up, p, l).next == curr
    requires In(ranks, l, curr) && Before(nodes, ranks, l, curr, succ)
    ensures Unlinking(nodes, Put(up, p, l, Link(succ, false)), ranks) < Unlinking(nodes, up, ranks)
  {
    hide Before, Larger;
    var up' := Put(up, p, l, Link(succ, false));
    var a, b := AheadAbove(nodes, up, ranks), AheadAbove(nodes, up', ranks);
    Behind(nodes, ranks, l, curr, succ);
    forall t | t in b ensures t in a {
      var (k, q, x) := t;
      assert Has(up, q, k) && x in Onward(nodes, ranks, k, At(up, q, k).next);
    }
    assert (l, p, curr) in a && (l, p, curr) !in b;
    Smaller(b, a, (l, p, curr));
  }

  lemma Behind(nodes: Heap, ranks: Ranks, l: nat, p: Ptr, q: Ptr)
    requires In(ranks, l, p) && Before(nodes, ranks, l, p, q)
    ensures Onward(nodes, ranks, l, q) <= Onward(nodes, ranks, l, p)
    ensures p in Onward(nodes, ranks, l, p) && p !in Onward(nodes, ranks, l, q)
  {
    forall x | x in Onward(nodes, ranks, l, q) ensures x in Onward(nodes, ranks, l, p) {
      if x != q { BeforeOn(nodes, ranks, l, p, q, x); }
    }
  }

  lemma SpliceUnlinks(nodes: Heap, up: Towers, ranks: Ranks, p: Ptr, curr: Ptr, succ: Ptr)
    requires p in nodes && nodes[p].next == curr && curr in nodes && succ in nodes && nodes[curr].key < nodes[succ].key
    ensures Unlinking(nodes[p := nodes[p].(next := succ)], up, ranks) < Unlinking(nodes, up, ranks)
  {
    var nodes' := nodes[p := nodes[p].(next := succ)];
    SameAbove(nodes, nodes', up, ranks);
    var a, b := AheadBelow(nodes), AheadBelow(nodes');
    forall t | t in b ensures t in a { assert Larger(nodes', nodes'[t.0].next) == Larger(nodes, nodes'[t.0].next); }
    assert curr in Larger(nodes, curr) && curr !in Larger(nodes, succ) && Larger(nodes', succ) == Larger(nodes, succ);
    assert (p, curr) in a && (p, curr) !in b;
    Smaller(b, a, (p, curr));
  }

  // Only keys matter above.
  lemma SameAbove(nodes: Heap, nodes': Heap, up: Towers, ranks: Ranks)
    requires nodes'.Keys == nodes.Keys && KeysStay(nodes, nodes')
    ensures AheadAbove(nodes', up, ranks) == AheadAbove(nodes, up, ranks)
  {
    hide Before;
    forall l: nat, p ensures Onward(nodes', ranks, l, p) == Onward(nodes, ranks, l, p) {
      SameOnward(nodes, nodes', ranks, l, p);
    }
  }

  lemma SameOnward(nodes: Heap, nodes': Heap, ranks: Ranks, l: nat, p: Ptr)
    requires nodes'.Keys == nodes.Keys && KeysStay(nodes, nodes')
    ensures Onward(nodes', ranks, l, p) == Onward(nodes, ranks, l, p)
  {
    assert forall x :: Before(nodes', ranks, l, p, x) <==> Before(nodes, ranks, l, p, x);
  }

  // A store into a node that is not linked on that level yet.
  lemma StoreUnlinks(nodes: Heap, up: Towers, ranks: Ranks, p: Ptr, l: nat, link: Link)
    requires Has(up, p, l) && !Entry(ranks, l, p)
    ensures Unlinking(nodes, Put(up, p, l, link), ranks) == Unlinking(nodes, up, ranks)
  {
    hide Onward;
    assert AheadAbove(nodes, Put(up, p, l, link), ranks) == AheadAbove(nodes, up, ranks);
  }

  // ---------------------------------------------------------------------------
  // The other threads
  // ---------------------------------------------------------------------------

  // A store does not disturb a search, and a remove only at the link it is about to mark.
  lemma StoreFresh(m: nat, nodes: Heap, up: Towers, ranks: Ranks, p: Ptr, l: nat, link: Link, key: real, reg: Reg,
                   level: nat)
    requires Has(up, p, l) && !Entry(ranks, l, p) && NotedAbove(m, nodes, ranks, key, reg, level)
    ensures FreshAbove(m, Put(up, p, l, link), reg, level) <==> FreshAbove(m, up, reg, level)
  {
    var up' := Put(up, p, l, link);
    forall k: nat | level < k <= m ensures Fresh(up', reg, k) <==> Fresh(up, reg, k) {
      assert NotedRank(nodes, ranks, key, reg, k);
    }
  }

  lemma StoreFirm(m: nat, nodes: Heap, up: Towers, ranks: Ranks, p: Ptr, l: nat, link: Link, key: real, pc: Pc,
                  reg: Reg)
    requires Has(up, p, l) && !Entry(ranks, l, p) && At(up, p, l).marked == link.marked && !reg.phase.Flag?
    requires PhaseRank(m, nodes, ranks, key, pc, reg) && RegOk(m, up, pc, reg) && !pc.Idle? && !pc.Returned?
    ensures Firm(m, nodes, Put(up, p, l, link), pc, reg) <==> Firm(m, nodes, up, pc, reg)
  {
    hide NotedAbove, FreshAbove, Noted, Before;
    StoreFresh(m, nodes, up, ranks, p, l, link, key, reg, Floor(reg.phase));
    if reg.phase.Store? || reg.phase.Join? {
      NotedUp(m, nodes, ranks, key, reg, reg.phase.level - 1);
      StoreFresh(m, nodes, up, ranks, p, l, link, key, reg, reg.phase.level - 1);
    }
  }

  lemma StoreMild(m: nat, nodes: Heap, up: Towers, ranks: Ranks, p: Ptr, l: nat, link: Link, key: real, pc: Pc,
                  reg: Reg)
    requires Has(up, p, l) && !Entry(ranks, l, p) && At(up, p, l).marked == link.marked
    requires PhaseRank(m, nodes, ranks, key, pc, reg) && RegOk(m, up, pc, reg)
    ensures Weight(m, nodes, Put(up, p, l, link), ranks, pc, reg) <=
            Weight(m, nodes, up, ranks, pc, reg) + (if reg.phase.Flag? then 2 else 0)
  {
    hide Firm, Pos, Laps, Span, Turns, Ahead, NotedAbove, Noted, Before, Put, OwnOk;
    if !pc.Idle? && !pc.Returned? && !reg.phase.Flag? { StoreFirm(m, nodes, up, ranks, p, l, link, key, pc, reg); }
  }

  lemma NotedUp(m: nat, nodes: Heap, ranks: Ranks, key: real, reg: Reg, level: nat)
    requires NotedAbove(m, nodes, ranks, key, reg, 0)
    ensures NotedAbove(m, nodes, ranks, key, reg, level)
  {
  }

  // ---------------------------------------------------------------------------
  // Sums over the threads
  // ---------------------------------------------------------------------------

  function Sum(xs: seq<nat>): nat {
    if xs == [] then 0 else Sum(xs[..|xs| - 1]) + xs[|xs| - 1]
  }

  lemma {:induction false} SumUp(xs: seq<nat>, ys: seq<nat>, d: nat)
    requires |ys| == |xs| && forall j :: 0 <= j < |xs| ==> ys[j] <= xs[j] + d
    ensures Sum(ys) <= Sum(xs) + d * |xs|
  {
    if xs != [] {
      var n := |xs| - 1;
      SumUp(xs[..n], ys[..n], d);
      assert d * |xs| == d * n + d;
    }
  }

  // One term falls, the others rise by `d` at most.
  lemma {:induction false} SumMoves(xs: seq<nat>, ys: seq<nat>, k: nat, d: nat)
    requires |ys| == |xs| && k < |xs| && ys[k] <= xs[k] && forall j :: 0 <= j < |xs| && j != k ==> ys[j] <= xs[j] + d
    ensures Sum(ys) + xs[k] <= Sum(xs) + ys[k] + d * |xs|
  {
    var n := |xs| - 1;
    assert d * |xs| == d * n + d;
    if k == n {
      SumUp(xs[..n], ys[..n], d);
    } else {
      SumMoves(xs[..n], ys[..n], k, d);
    }
  }

  // All threads, each once.
  ghost predicate Listed(ids: seq<Tid>, s: Tower.State) {
    && (forall x :: x in ids <==> x in s.base.threads)
    && (forall i, j :: 0 <= i < j < |ids| ==> ids[i] != ids[j])
  }

  lemma {:induction false} Listing(ts: set<Tid>) returns (ids: seq<Tid>)
    ensures (forall x :: x in ids <==> x in ts) && (forall i, j :: 0 <= i < j < |ids| ==> ids[i] != ids[j])
  {
    if ts == {} {
      ids := [];
    } else {
      var t :| t in ts;
      ids := Listing(ts - {t});
      ids := ids + [t];
      assert forall x :: x in ts <==> x in ts - {t} || x == t;
    }
  }

  // ---------------------------------------------------------------------------
  // The measure
  // ---------------------------------------------------------------------------

  ghost function DueAt(s: Tower.State, t: Tid): nat {
    if t in s.base.threads && t in s.regs then Due(s.base.threads[t].pc, s.regs[t]) else 0
  }

  ghost function Dues(ids: seq<Tid>, s: Tower.State): seq<nat> {
    seq(|ids|, k requires 0 <= k < |ids| => DueAt(s, ids[k]))
  }

  ghost function Big(ids: seq<Tid>, s: Tower.State): nat { Sum(Dues(ids, s)) + |Unflagged(s.up)| }

  ghost function Small(s: Tower.State, ranks: Ranks): nat { Unlinking(s.base.g.nodes, s.up, ranks) }

  // How far a thread is from its end; that of an insert counts for more, since its stores
  // may set removes back.
  ghost function CostAt(m: nat, s: Tower.State, ranks: Ranks, t: Tid, n: nat): nat {
    if t in s.base.threads && t in s.regs && Left(m, s, t, ranks) >= 0 then
      (if Aim(s.base.threads[t].pc) == Some(Insert) then 2 * n + 1 else 1) * Left(m, s, t, ranks)
    else 0
  }

  ghost function Costs(m: nat, ids: seq<Tid>, s: Tower.State, ranks: Ranks): seq<nat> {
    seq(|ids|, k requires 0 <= k < |ids| => CostAt(m, s, ranks, ids[k], |ids|))
  }

  ghost function Tiny(m: nat, ids: seq<Tid>, s: Tower.State, ranks: Ranks): nat { Sum(Costs(m, ids, s, ranks)) }

  ghost predicate Good(m: nat, s: Tower.State, ranks: Ranks) {
    Inv(s.base) && UpInv(m, s) && CleanInv(s) && RankInv(m, s, ranks) && AllStaged(s.base.g.nodes, s.up)
  }

  lemma GoodStep(m: nat, s: Tower.State, t: Tid, a: Act, s': Tower.State, ranks: Ranks) returns (ranks': Ranks)
    requires Good(m, s, ranks) && Tower.Next(m, s, t, a, s') && MarksStay(s.up, s'.up)
    ensures Good(m, s', ranks')
    ensures ranks' == RanksAfter(s.base.g, s.base.threads[t], s.regs[t], s.up, a, ranks)
  {
    hide Inv, UpInv, CleanInv, RankInv, AllStaged, MarksStay, Ready, Effect, RanksAfter;
    BaseStep(m, s, t, a, s');
    UpKept(m, s, t, a, s');
    CleanKept(m, s, t, a, s');
    StagedStep(m, s, t, a, s');
    ranks' := RankKept(m, s, t, a, s', ranks);
  }

  lemma BaseStep(m: nat, s: Tower.State, t: Tid, a: Act, s': Tower.State)
    requires Inv(s.base) && Tower.Next(m, s, t, a, s')
    ensures Inv(s'.base)
  {
    hide Inv, Ready, Effect;
    StepKeepsInv(s.base, t, Effect(m, s.base.g, s.base.threads[t], s.regs[t], s.up, a).0, s'.base);
  }

  // ---------------------------------------------------------------------------
  // Every step makes it fall
  // ---------------------------------------------------------------------------

  ghost predicate Links(g: Shared, th: Thread, reg: Reg, up: Towers, a: Act) {
    Joins(g, th, reg, up, a) || Marking(g, th, reg, a) || Publishing(g, th, reg, a) || Flagging(th, reg, up, a)
  }

  predicate Cuts(th: Thread, reg: Reg, up: Towers, a: Act) {
    && a.Move? && reg.phase.Cut? && th.pc.Route? && Has(up, th.pc.start, reg.phase.level)
    && At(up, th.pc.start, reg.phase.level) == Link(reg.phase.curr, false)
  }

  predicate Splices(g: Shared, th: Thread, reg: Reg, a: Act) {
    a.Move? && reg.phase.Below? && th.pc.Splice? && CasOk(g.nodes, th.pc.pred, th.pc.curr)
  }

  lemma BigFalls(m: nat, s: Tower.State, t: Tid, a: Act, s': Tower.State, ids: seq<Tid>, k: nat)
    requires Inv(s.base) && UpInv(m, s) && Tower.Next(m, s, t, a, s') && a.Move? && MarksStay(s.up, s'.up)
    requires Listed(ids, s) && k < |ids| && ids[k] == t
    ensures Big(ids, s') <= Big(ids, s)
    ensures Links(s.base.g, s.base.threads[t], s.regs[t], s.up, a) ==> Big(ids, s') < Big(ids, s)
  {
    hide ListInv, ThreadOk, TowersOk, RegOk, Outcome, Enabled, Ready, Effect, MarksStay, Due, Sum, Unflagged, CasOk;
    var g, th, reg, up := s.base.g, s.base.threads[t], s.regs[t], s.up;
    assert ThreadUp(m, s, t);
    assert MoverOk(m, g, th, reg, up);
    MoverUp(m, g, th, reg, up, a);
    StepDue(m, g, th, reg, up, a);
    StepFlags(m, g, th, reg, up, a);
    PcsAfter(s.base, t, Effect(m, g, th, reg, up, a).0, s'.base);
    SumMoves(Dues(ids, s), Dues(ids, s'), k, 0);
  }

  // What is neither linked, nor marked, nor unlinked stays, but for a store.
  lemma Otherwise(m: nat, g: Shared, th: Thread, reg: Reg, up: Towers, a: Act)
    requires Ready(m, g, th, reg, up, a) && Enabled(g, th, Effect(m, g, th, reg, up, a).0) && a.Move?
    requires !Links(g, th, reg, up, a) && !Cuts(th, reg, up, a) && !Splices(g, th, reg, a)
    ensures
      var (b, _, up') := Effect(m, g, th, reg, up, a);
      Outcome(g, th, b).1.nodes == g.nodes && (up' == up || reg.phase.Store?)
  {
    hide Put, Advance;
    if reg.phase.Below? { NodesOtherwise(g, th, a.memory); }
  }

  lemma NodesOtherwise(g: Shared, th: Thread, n: Ptr)
    requires Enabled(g, th, Go(n))
    requires th.pc.Splice? ==> !CasOk(g.nodes, th.pc.pred, th.pc.curr)
    requires th.pc.Publish? ==> !CasOk(g.nodes, th.pc.pred, th.pc.succ)
    requires th.pc.Mark? ==> !CasOk(g.nodes, th.pc.node, th.pc.succ)
    ensures Outcome(g, th, Go(n)).1.nodes == g.nodes
  {
    hide Outcome, Enabled, CasOk;
    if th.pc.Splice? || th.pc.Publish? || th.pc.Mark? { CasOutcome(g, th, n); } else { SameNodes(g, th, n); }
  }

  // Unlinking, on an upper level and on level 0.
  lemma SmallFalls(m: nat, s: Tower.State, t: Tid, a: Act, s': Tower.State, ranks: Ranks)
    requires Inv(s.base) && UpInv(m, s) && RankInv(m, s, ranks) && Tower.Next(m, s, t, a, s') && a.Move?
    requires Cuts(s.base.threads[t], s.regs[t], s.up, a) || Splices(s.base.g, s.base.threads[t], s.regs[t], a)
    ensures RanksAfter(s.base.g, s.base.threads[t], s.regs[t], s.up, a, ranks) == ranks
    ensures Small(s', ranks) < Small(s, ranks)
  {
    hide ListInv, ThreadOk, TowersOk, RegOk, RanksOk, NotedAbove, Unlinking, Outcome, Enabled, CasOk, Put, Before;
    var g, th, reg, up := s.base.g, s.base.threads[t], s.regs[t], s.up;
    var b := Effect(m, g, th, reg, up, a).0;
    PcsAfter(s.base, t, b, s'.base);
    assert ThreadUp(m, s, t);
    if Cuts(th, reg, up, a) {
      var Cut(l, curr, succ) := reg.phase;
      ElsewhereNodes(g, th);
      LinksHere(m, g.nodes, up, ranks, l, curr);
      LevelBounds(m, up, th.pc, reg);
      CutUnlinks(g.nodes, up, ranks, th.pc.start, l, curr, succ);
    } else {
      var Splice(_, pred, curr, succ) := th.pc;
      CasOutcome(g, th, a.memory);
      NoTower(g, th, reg, up, a.memory);
      SpliceKeys(g, th);
      SpliceUnlinks(g.nodes, up, ranks, pred, curr, succ);
    }
  }

  lemma ElsewhereNodes(g: Shared, th: Thread)
    requires Enabled(g, th, Elsewhere)
    ensures Outcome(g, th, Elsewhere).1.nodes == g.nodes
  {
  }

  lemma SpliceKeys(g: Shared, th: Thread)
    requires ListInv(g) && ThreadOk(g, th) && th.pc.Splice? && CasOk(g.nodes, th.pc.pred, th.pc.curr)
    ensures th.pc.pred in g.nodes && g.nodes[th.pc.pred].next == th.pc.curr && th.pc.curr in g.nodes
    ensures th.pc.succ in g.nodes && g.nodes[th.pc.curr].key < g.nodes[th.pc.succ].key
  {
    assert Up(g.nodes, th.pc.curr);
  }

  lemma GoodIsGoing(m: nat, s: Tower.State, ranks: Ranks, t: Tid)
    requires Good(m, s, ranks) && t in s.base.threads
    ensures Going(m, s, t, ranks)
  {
    hide Inv, TowersOk, RanksOk, ThreadRank, Staged, AllStaged, ThreadUp, CleanThread;
    StagedBelow(s.base.g.nodes, s.up, s.base.threads[t].key);
  }

  // A store leaves the others where they are, but for a remove that is about to mark.
  lemma StoreLeft(m: nat, s: Tower.State, t: Tid, a: Act, s': Tower.State, ranks: Ranks, u: Tid)
    requires Good(m, s, ranks) && Tower.Next(m, s, t, a, s') && a.Move? && s.regs[t].phase.Store?
    requires MarksStay(s.up, s'.up) && u in s.base.threads && u != t
    ensures u in s'.base.threads && u in s'.regs && u in s.regs
    ensures Left(m, s', u, ranks) <= Left(m, s, u, ranks) + (if s.regs[u].phase.Flag? then 2 else 0)
  {
    hide ListInv, ThreadOk, TowersOk, RanksOk, NotedAbove, Noted, Weight, Put, MarksStay, AllStaged, Capped,
      CleanThread, Before, FreshAbove, Observe;
    var g, th, reg, up := s.base.g, s.base.threads[t], s.regs[t], s.up;
    assert ThreadUp(m, s, t) && ThreadUp(m, s, u);
    var l := reg.phase.level;
    var link := Link(reg.succs[l - 1], false);
    StaysUnmarked(up, reg.node, l, link);
    Sentinel(g, th);
    StoreOwn(m, g.nodes, ranks, th, reg, up);
    ThreadsAfter(s.base, t, Elsewhere, s'.base);
    Observed(s.base.threads[u], Outcome(g, th, Elsewhere).1);
    StoreMild(m, g.nodes, up, ranks, reg.node, l, link, s.base.threads[u].key, s.base.threads[u].pc, s.regs[u]);
  }

  lemma StoreOwn(m: nat, nodes: Heap, ranks: Ranks, th: Thread, reg: Reg, up: Towers)
    requires ThreadRank(m, nodes, ranks, th.key, th.pc, reg) && RegOk(m, up, th.pc, reg) && reg.phase.Store?
    requires HEAD in nodes && nodes[HEAD].key < th.key
    ensures !Entry(ranks, reg.phase.level, reg.node)
  {
    hide NotedAbove, Noted;
    assert In(ranks, reg.phase.level, reg.node) <==> reg.phase.level < reg.rung;
  }

  // The call a thread is in stays the same.
  lemma AimsStay(m: nat, s: Tower.State, t: Tid, a: Act, s': Tower.State, u: Tid)
    requires Tower.Next(m, s, t, a, s') && a.Move? && u in s.base.threads
    ensures u in s'.base.threads && Aim(s'.base.threads[u].pc) == Aim(s.base.threads[u].pc)
  {
    hide Ready, Effect, Outcome, Enabled, Aim;
    var g, th, reg, up := s.base.g, s.base.threads[t], s.regs[t], s.up;
    MoveIsNoBegin(m, g, th, reg, up, a);
    AimStays(s.base, t, Effect(m, g, th, reg, up, a).0, s'.base, u);
  }

  lemma MoveIsNoBegin(m: nat, g: Shared, th: Thread, reg: Reg, up: Towers, a: Act)
    requires Ready(m, g, th, reg, up, a) && a.Move?
    ensures !Effect(m, g, th, reg, up, a).0.Begin?
  {
    hide Outcome;
  }

  ghost predicate Quiet(m: nat, s: Tower.State, t: Tid, a: Act, s': Tower.State, ranks: Ranks) {
    && Good(m, s, ranks) && Tower.Next(m, s, t, a, s') && a.Move? && MarksStay(s.up, s'.up)
    && s'.base.g.nodes == s.base.g.nodes && (s'.up == s.up || s.regs[t].phase.Store?)
  }

  // The costs of the other threads.
  lemma OtherCost(m: nat, s: Tower.State, t: Tid, a: Act, s': Tower.State, ranks: Ranks, u: Tid, n: nat)
    requires Quiet(m, s, t, a, s', ranks) && u in s.base.threads && u != t
    ensures CostAt(m, s', ranks, u, n) <= CostAt(m, s, ranks, u, n) + (if s.regs[t].phase.Store? then 2 else 0)
  {
    hide Good, Tower.Next, Left, Aim, MarksStay;
    GoodIsGoing(m, s, ranks, u);
    AimsStay(m, s, t, a, s', u);
    InRegs(m, s, ranks, u);
    InRegs(m, s, ranks, t);
    if s'.up == s.up {
      OthersQuiet(m, s, t, a, s', u, ranks);
    } else {
      StoreLeft(m, s, t, a, s', ranks, u);
      FlagAim(m, s, ranks, u);
    }
    var c := if Aim(s.base.threads[u].pc) == Some(Insert) then 2 * n + 1 else 1;
    Grows2(c, Left(m, s, u, ranks), Left(m, s', u, ranks));
  }

  lemma Grows2(c: nat, x: int, y: int)
    requires c >= 1
    ensures 0 <= y <= x ==> c * y <= c * x
  {
    if 0 <= y < x { Bits.MulStep(c, y, x); }
  }

  lemma InRegs(m: nat, s: Tower.State, ranks: Ranks, u: Tid)
    requires Good(m, s, ranks)
    ensures u in s.regs <==> u in s.base.threads
  {
    hide Inv, TowersOk, RanksOk, ThreadRank, AllStaged, ThreadUp, CleanThread;
  }

  lemma FlagAim(m: nat, s: Tower.State, ranks: Ranks, u: Tid)
    requires Good(m, s, ranks) && u in s.base.threads && u in s.regs
    ensures s.regs[u].phase.Flag? ==> Aim(s.base.threads[u].pc) == Some(Remove)
  {
    hide Inv, TowersOk, RanksOk, ThreadRank, AllStaged, CleanThread, Noted;
    assert ThreadUp(m, s, u);
  }

  lemma OwnCost(m: nat, s: Tower.State, t: Tid, a: Act, s': Tower.State, ranks: Ranks, n: nat)
    requires Quiet(m, s, t, a, s', ranks) && Active(s.base.threads[t])
    requires !Joins(s.base.g, s.base.threads[t], s.regs[t], s.up, a)
    ensures CostAt(m, s', ranks, t, n) + (if s.regs[t].phase.Store? then 2 * n + 1 else 1) <= CostAt(m, s, ranks, t, n)
  {
    hide Good, Tower.Next, Left, MarksStay, Going;
    MoverIn(m, s, t, a, s', ranks);
    GoodIsGoing(m, s, ranks, t);
    AimsStay(m, s, t, a, s', t);
    InRegs(m, s, ranks, t);
    var ranks' := OwnStepNearer(m, s, t, a, s', ranks);
    NoJoin(s.base.g, s.base.threads[t], s.regs[t], s.up, a, ranks);
    StoreAim(m, s, ranks, t);
    SameRegs(m, s, t, a, s');
    var c := if Aim(s.base.threads[t].pc) == Some(Insert) then 2 * n + 1 else 1;
    Bits.MulStep(c, Left(m, s', t, ranks), Left(m, s, t, ranks));
  }

  lemma SameRegs(m: nat, s: Tower.State, t: Tid, a: Act, s': Tower.State)
    requires Tower.Next(m, s, t, a, s')
    ensures s'.regs.Keys == s.regs.Keys && s'.base.threads.Keys == s.base.threads.Keys
  {
    hide Ready, Effect, Outcome, Enabled;
  }

  lemma StoreAim(m: nat, s: Tower.State, ranks: Ranks, t: Tid)
    requires Good(m, s, ranks) && t in s.base.threads && t in s.regs
    ensures s.regs[t].phase.Store? ==> Aim(s.base.threads[t].pc) == Some(Insert)
  {
    hide Inv, TowersOk, RanksOk, ThreadRank, AllStaged, CleanThread, Noted;
    assert ThreadUp(m, s, t);
  }

  lemma TinyFalls(m: nat, s: Tower.State, t: Tid, a: Act, s': Tower.State, ranks: Ranks, ids: seq<Tid>, k: nat)
    requires Quiet(m, s, t, a, s', ranks) && Active(s.base.threads[t])
    requires !Joins(s.base.g, s.base.threads[t], s.regs[t], s.up, a)
    requires Listed(ids, s) && k < |ids| && ids[k] == t
    ensures Tiny(m, ids, s', ranks) < Tiny(m, ids, s, ranks)
  {
    hide Quiet, CostAt, Sum, Joins;
    var xs, ys := Costs(m, ids, s, ranks), Costs(m, ids, s', ranks);
    MoverIn(m, s, t, a, s', ranks);
    var d := if s.regs[t].phase.Store? then 2 else 0;
    OwnCost(m, s, t, a, s', ranks, |ids|);
    forall j | 0 <= j < |xs| && j != k ensures ys[j] <= xs[j] + d {
      assert ids[j] in s.base.threads && ids[j] != t;
      OtherCost(m, s, t, a, s', ranks, ids[j], |ids|);
    }
    SumMoves(xs, ys, k, d);
  }

  lemma MoverIn(m: nat, s: Tower.State, t: Tid, a: Act, s': Tower.State, ranks: Ranks)
    requires Quiet(m, s, t, a, s', ranks)
    ensures t in s.base.threads && t in s.regs
  {
  }

  // The three quantities fall, the first that changes does.
  ghost predicate Falls(m: nat, ids: seq<Tid>, s: Tower.State, ranks: Ranks, s': Tower.State, ranks': Ranks) {
    || Big(ids, s') < Big(ids, s)
    || (Big(ids, s') == Big(ids, s) && Small(s', ranks') < Small(s, ranks))
    || (Big(ids, s') == Big(ids, s) && Small(s', ranks') == Small(s, ranks)
        && Tiny(m, ids, s', ranks') < Tiny(m, ids, s, ranks))
  }

  lemma StepFalls(m: nat, s: Tower.State, t: Tid, a: Act, s': Tower.State, ranks: Ranks, ids: seq<Tid>, k: nat)
      returns (ranks': Ranks)
    requires Good(m, s, ranks) && Tower.Next(m, s, t, a, s') && a.Move? && MarksStay(s.up, s'.up)
    requires Listed(ids, s) && k < |ids| && ids[k] == t
    ensures Good(m, s', ranks') && Falls(m, ids, s, ranks, s', ranks')
  {
    hide Inv, UpInv, CleanInv, RankInv, AllStaged, MarksStay, Ready, Effect, RanksAfter, Big, Small, Tiny, Joins,
      Cuts, Splices, Links, Outcome, Enabled;
    var g, th, reg, up := s.base.g, s.base.threads[t], s.regs[t], s.up;
    ranks' := GoodStep(m, s, t, a, s', ranks);
    BigFalls(m, s, t, a, s', ids, k);
    if !Links(g, th, reg, up, a) {
      NotJoining(g, th, reg, up, a);
      NoJoin(g, th, reg, up, a, ranks);
      if Cuts(th, reg, up, a) || Splices(g, th, reg, a) {
        SmallFalls(m, s, t, a, s', ranks);
      } else {
        Otherwise(m, g, th, reg, up, a);
        PcsAfter(s.base, t, Effect(m, g, th, reg, up, a).0, s'.base);
        MoverActs(m, g, th, reg, up, a);
        SameSmall(m, s, t, a, s', ranks);
        TinyFalls(m, s, t, a, s', ranks, ids, k);
      }
    }
  }

  lemma NotJoining(g: Shared, th: Thread, reg: Reg, up: Towers, a: Act)
    requires !Links(g, th, reg, up, a)
    ensures !Joins(g, th, reg, up, a)
  {
  }

  lemma MoverActs(m: nat, g: Shared, th: Thread, reg: Reg, up: Towers, a: Act)
    requires Ready(m, g, th, reg, up, a) && a.Move?
    ensures Active(th)
  {
    hide Has;
  }

  lemma SameSmall(m: nat, s: Tower.State, t: Tid, a: Act, s': Tower.State, ranks: Ranks)
    requires Quiet(m, s, t, a, s', ranks)
    ensures Small(s', ranks) == Small(s, ranks)
  {
    hide ListInv, ThreadOk, TowersOk, RanksOk, NotedAbove, Noted, Unlinking, Put, MarksStay, AllStaged, Capped,
      CleanThread, Before;
    if s'.up != s.up {
      var g, th, reg := s.base.g, s.base.threads[t], s.regs[t];
      assert ThreadUp(m, s, t);
      Sentinel(g, th);
      StoreOwn(m, g.nodes, ranks, th, reg, s.up);
      StoreUnlinks(g.nodes, s.up, ranks, reg.node, reg.phase.level, Link(reg.succs[reg.phase.level - 1], false));
    }
  }

  // ---------------------------------------------------------------------------
  // Infinite runs
  // ---------------------------------------------------------------------------

  type Endless = nat -> Tower.State

  ghost predicate StepOn(m: nat, run: Endless, i: nat) { Tower.Stepped(m, run(i), run(i + 1)) }

  ghost predicate Running(m: nat, run: Endless) {
    Tower.Init(m, run(0)) && forall i: nat {:trigger StepOn(m, run, i)} :: StepOn(m, run, i)
  }

  // No mark is written over.
  ghost predicate CleanOn(run: Endless, i: nat) { MarksStay(run(i).up, run(i + 1).up) }

  ghost predicate AlwaysCleanOn(run: Endless) { forall i: nat {:trigger CleanOn(run, i)} :: CleanOn(run, i) }

  ghost predicate ActiveIn(s: Tower.State, t: Tid) { t in s.base.threads && Active(s.base.threads[t]) }

  // An operation of thread `t` returns in step `j`.
  ghost predicate ReturnsAt(run: Endless, j: nat, t: Tid) {
    ActiveIn(run(j), t) && t in run(j + 1).base.threads && run(j + 1).base.threads[t].pc.Returned?
  }

  // The threads that are in no operation.
  ghost function RestsOf(ids: seq<Tid>, s: Tower.State): seq<nat> {
    seq(|ids|, k requires 0 <= k < |ids| => if ActiveIn(s, ids[k]) then 0 else 1)
  }

  ghost function Rests(ids: seq<Tid>, s: Tower.State): nat { Sum(RestsOf(ids, s)) }

  lemma RestsStep(m: nat, s: Tower.State, t: Tid, a: Act, s': Tower.State, ids: seq<Tid>, k: nat)
    requires Tower.Next(m, s, t, a, s') && Listed(ids, s) && k < |ids| && ids[k] == t && ActiveIn(s', t)
    ensures Listed(ids, s') && Rests(ids, s') <= Rests(ids, s)
    ensures !ActiveIn(s, t) ==> Rests(ids, s') < Rests(ids, s)
  {
    hide Ready, Effect, Outcome, Enabled, Sum, Active;
    var g, th, reg, up := s.base.g, s.base.threads[t], s.regs[t], s.up;
    PcsAfter(s.base, t, Effect(m, g, th, reg, up, a).0, s'.base);
    var xs, ys := RestsOf(ids, s), RestsOf(ids, s');
    forall j | 0 <= j < |xs| && j != k ensures ys[j] <= xs[j] + 0 {
      assert ids[j] in s.base.threads && ids[j] != t;
      SamePc(s.base.threads[ids[j]], s'.base.threads[ids[j]]);
    }
    SumMoves(xs, ys, k, 0);
  }

  lemma SamePc(th: Thread, th': Thread)
    requires th'.pc == th.pc
    ensures Active(th') == Active(th)
  {
  }

  lemma StartsResting(m: nat, s: Tower.State, t: Tid, a: Act, s': Tower.State)
    requires Tower.Next(m, s, t, a, s') && a.Start?
    ensures !ActiveIn(s, t) && ActiveIn(s', t)
  {
  }

  lemma IndexOf(ids: seq<Tid>, s: Tower.State, t: Tid) returns (k: nat)
    requires Listed(ids, s) && t in s.base.threads
    ensures k < |ids| && ids[k] == t
  {
    assert t in ids;
    k :| 0 <= k < |ids| && ids[k] == t;
  }

  lemma {:induction false} ReturnsNext(m: nat, run: Endless, i: nat, ranks: Ranks, ids: seq<Tid>)
      returns (j: nat, t: Tid)
    requires Running(m, run) && AlwaysCleanOn(run) && Good(m, run(i), ranks) && Listed(ids, run(i))
    ensures j >= i && ReturnsAt(run, j, t)
    decreases Rests(ids, run(i)), Big(ids, run(i)), Small(run(i), ranks), Tiny(m, ids, run(i), ranks)
  {
    hide Good, Tower.Next, MarksStay, Listed, Rests, Big, Small, Tiny, Tower.Init;
    assert StepOn(m, run, i) && CleanOn(run, i);
    var u, a :| Tower.Next(m, run(i), u, a, run(i + 1));
    Actor(m, run(i), u, a, run(i + 1));
    var k := IndexOf(ids, run(i), u);
    if a.Start? {
      StartsResting(m, run(i), u, a, run(i + 1));
      RestsStep(m, run(i), u, a, run(i + 1), ids, k);
      var ranks' := GoodStep(m, run(i), u, a, run(i + 1), ranks);
      j, t := ReturnsNext(m, run, i + 1, ranks', ids);
    } else if ActiveIn(run(i + 1), u) {
      RestsStep(m, run(i), u, a, run(i + 1), ids, k);
      var ranks' := StepFalls(m, run(i), u, a, run(i + 1), ranks, ids, k);
      j, t := ReturnsNext(m, run, i + 1, ranks', ids);
    } else {
      SameOperation(m, run(i), u, a, run(i + 1));
      j, t := i, u;
    }
  }

  // The thread that moves.
  lemma Actor(m: nat, s: Tower.State, t: Tid, a: Act, s': Tower.State)
    requires Tower.Next(m, s, t, a, s')
    ensures t in s.base.threads && t in s.regs && t in s'.base.threads && (a.Move? ==> ActiveIn(s, t))
  {
    hide Effect, Outcome, Enabled;
    if a.Move? { MoverActs(m, s.base.g, s.base.threads[t], s.regs[t], s.up, a); }
  }

  lemma {:induction false} AlwaysGood(m: nat, run: Endless, i: nat) returns (ranks: Ranks)
    requires Running(m, run) && AlwaysCleanOn(run)
    ensures Good(m, run(i), ranks)
  {
    hide Good, Tower.Next, MarksStay;
    if i == 0 {
      ranks := GoodStart(m, run(0));
    } else {
      ranks := AlwaysGood(m, run, i - 1);
      assert StepOn(m, run, i - 1) && CleanOn(run, i - 1);
      var t, a :| Tower.Next(m, run(i - 1), t, a, run(i));
      ranks := GoodStep(m, run(i - 1), t, a, run(i), ranks);
    }
  }

  lemma GoodStart(m: nat, s: Tower.State) returns (ranks: Ranks)
    requires Tower.Init(m, s)
    ensures Good(m, s, ranks)
  {
    hide Inv, UpInv, CleanInv, RankInv;
    assert Tower.Behavior(m, [s]);
    BaseInv(m, [s], 0);
    UpStart(m, s);
    CleanStart(m, s);
    ranks := RankStart(m, s);
  }

  // Lock freedom: in an infinite run in which no mark is written over, after every step
  // some operation returns.
  lemma LockFree(m: nat, run: Endless, i: nat) returns (j: nat, t: Tid)
    requires Running(m, run) && AlwaysCleanOn(run)
    ensures j >= i && ReturnsAt(run, j, t)
  {
    hide Good;
    var ranks := AlwaysGood(m, run, i);
    var ids := Listing(run(i).base.threads.Keys);
    j, t := ReturnsNext(m, run, i, ranks, ids);
  }

  // ---------------------------------------------------------------------------
  // When the list is lock-free
  // ---------------------------------------------------------------------------

  function Prefix(run: Endless, n: nat): seq<Tower.State> { seq(n, i requires 0 <= i < n => run(i)) }

  lemma FlatOrAloneRuns(m: nat, run: Endless)
    requires Running(m, run) && (m == 0 || |run(0).base.threads| <= 1)
    ensures AlwaysCleanOn(run)
  {
    hide Tower.Init, Tower.Stepped, MarksStay;
    forall i: nat ensures CleanOn(run, i) {
      var head := Prefix(run, i + 2);
      forall j | 0 <= j < |head| - 1 ensures Tower.StepAt(m, head, j) { assert StepOn(m, run, j); }
      FlatOrAloneIsClean(m, head);
      assert CleanAt(head, i);
    }
  }

  // Thread `u` is in an operation at the end of every continuation.
  ghost predicate Hanging(m: nat, run: seq<Tower.State>, u: Tid) {
    && Tower.Behavior(m, run)
    && forall run': seq<Tower.State> :: Tower.Behavior(m, run') && run <= run' ==> BusyAt(run', |run'| - 1, u)
  }

  // The run goes on with `n` steps of that thread.
  ghost function Onto(m: nat, run: seq<Tower.State>, u: Tid, n: nat): (r: seq<Tower.State>)
    requires Hanging(m, run, u)
    ensures Tower.Behavior(m, r) && run <= r && |r| == |run| + n && OnlyThread(m, r, |run| - 1, u)
  {
    if n == 0 then run
    else
      var r := Onto(m, run, u, n - 1);
      GoesOn(m, run, r, u);
      var last := r[|r| - 1];
      var s' :| Moves(m, last, u, s');
      MovesOn(m, run, r, u, s');
      r + [s']
  }

  ghost predicate CanMove(m: nat, s: Tower.State, u: Tid) { exists s' :: Moves(m, s, u, s') }

  lemma GoesOn(m: nat, run: seq<Tower.State>, r: seq<Tower.State>, u: Tid)
    requires Hanging(m, run, u) && Tower.Behavior(m, r) && run <= r
    ensures CanMove(m, r[|r| - 1], u)
  {
    hide Tower.Behavior, Tower.Next;
    NeverStuck(m, r, |r| - 1, u);
    var n, s' :| Tower.Next(m, r[|r| - 1], u, Move(n), s');
    assert Moves(m, r[|r| - 1], u, s');
  }

  lemma MovesOn(m: nat, run: seq<Tower.State>, r: seq<Tower.State>, u: Tid, s': Tower.State)
    requires Tower.Behavior(m, r) && |run| > 0 && run <= r && OnlyThread(m, r, |run| - 1, u)
    requires Moves(m, r[|r| - 1], u, s')
    ensures Tower.Behavior(m, r + [s']) && OnlyThread(m, r + [s'], |run| - 1, u)
  {
    hide Tower.Init, Tower.StepAt, Tower.Next;
    assert Tower.Stepped(m, r[|r| - 1], s');
    Longer(m, r, s');
    forall j | |run| - 1 <= j < |r + [s']| - 1 ensures StepOf(m, r + [s'], j, u) {
      if j < |r| - 1 { assert StepOf(m, r, j, u); }
    }
  }

  // ... and for ever.
  lemma HangsEndlessly(m: nat, run: seq<Tower.State>, u: Tid) returns (on: Endless)
    requires Hanging(m, run, u)
    ensures Running(m, on) && on(0) == run[0]
    ensures forall j: nat, t :: j >= |run| - 1 ==> !ReturnsAt(on, j, t)
  {
    hide Tower.Init, Tower.Stepped, Tower.Next, Hanging;
    assert |run| > 0 by { Started(m, run, u); }
    on := (i: nat) => Onto(m, run, u, i + 1)[i];
    forall i: nat ensures StepOn(m, on, i) {
      var r := Onto(m, run, u, i + 2);
      OntoGrows(m, run, u, i + 1);
      assert Tower.StepAt(m, r, i);
    }
    forall j: nat, t | j >= |run| - 1 ensures !ReturnsAt(on, j, t) {
      var r := Onto(m, run, u, j + 2);
      OntoGrows(m, run, u, j + 1);
      assert StepOf(m, r, j, u);
      NobodyReturns(m, run, r, u, j, t);
    }
  }

  lemma Started(m: nat, run: seq<Tower.State>, u: Tid)
    requires Hanging(m, run, u)
    ensures |run| > 0
  {
  }

  lemma OntoGrows(m: nat, run: seq<Tower.State>, u: Tid, n: nat)
    requires Hanging(m, run, u)
    ensures Onto(m, run, u, n) <= Onto(m, run, u, n + 1)
  {
    hide Hanging;
  }

  lemma NobodyReturns(m: nat, run: seq<Tower.State>, r: seq<Tower.State>, u: Tid, j: nat, t: Tid)
    requires Hanging(m, run, u) && Tower.Behavior(m, r) && run <= r && |run| - 1 <= j < |r| - 1
    requires Moves(m, r[j], u, r[j + 1])
    ensures ActiveIn(r[j], t) && t in r[j + 1].base.threads ==> !r[j + 1].base.threads[t].pc.Returned?
  {
    hide Ready, Effect, Outcome, Enabled, Tower.Init, Tower.StepAt;
    var a :| Tower.Next(m, r[j], u, a, r[j + 1]);
    var g, th, reg, up := r[j].base.g, r[j].base.threads[u], r[j].regs[u], r[j].up;
    PcsAfter(r[j].base, u, Effect(m, g, th, reg, up, a).0, r[j + 1].base);
    if t == u {
      var head := r[..j + 2];
      forall i | 0 <= i < |head| - 1 ensures Tower.StepAt(m, head, i) {
        assert Tower.StepAt(m, r, i);
        SameStepAt(m, r, head, i);
      }
      assert BusyAt(head, j + 1, u);
    }
  }

  // An infinite run of the given threads.
  ghost predicate RunOf(m: nat, ts: set<Tid>, run: Endless) { Running(m, run) && run(0).base.threads.Keys == ts }

  ghost predicate ReturnsFrom(run: Endless, i: nat, j: nat, t: Tid) { j >= i && ReturnsAt(run, j, t) }

  // Operations return again and again.
  ghost predicate KeepsReturning(run: Endless) {
    forall i: nat {:trigger ReturnsAfter(run, i)} :: ReturnsAfter(run, i)
  }

  ghost predicate ReturnsAfter(run: Endless, i: nat) { exists j: nat, t :: ReturnsFrom(run, i, j, t) }

  // The list is lock-free if and only if it has a single level or a single thread: in
  // every infinite run operations return again and again.
  lemma LockFreeIffFlatOrAlone(m: nat, ts: set<Tid>)
    ensures (forall run: Endless :: RunOf(m, ts, run) ==> KeepsReturning(run)) <==> (m == 0 || |ts| <= 1)
  {
    hide Running;
    if m == 0 || |ts| <= 1 {
      forall run: Endless | RunOf(m, ts, run) ensures KeepsReturning(run) {
        assert |run(0).base.threads| == |ts|;
        FlatOrAloneRuns(m, run);
        forall i: nat ensures ReturnsAfter(run, i) {
          var j, t := LockFree(m, run, i);
          assert ReturnsFrom(run, i, j, t);
        }
      }
    } else {
      var t, u := TwoOf(ts);
      var run := HangsForGood(m, ts, t, u, 0.0, 1.0, 0);
      var on := HangsEndlessly(m, run, u);
      assert RunOf(m, ts, on);
      assert !ReturnsAfter(on, |run| - 1);
    }
  }
}
