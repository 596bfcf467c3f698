/** No upper level has a cycle, in any run: links lead to larger keys, or to a node of
  * the same key that was linked on that level before.
  */
module TowerRank {
  import opened BottomList
  import opened BottomSteps
  import opened Tower
  import opened TowerClean

  // The nodes that have been linked on each level, numbered in that order; level `l` is
  // at index `l - 1`.
  type Ranks = seq<map<Ptr, nat>>

  predicate In(ranks: Ranks, l: nat, p: Ptr) { 1 <= l <= |ranks| && p in ranks[l - 1] }

  predicate Known(ranks: Ranks, l: nat, p: Ptr) { p == TAIL || In(ranks, l, p) }

  predicate Entry(ranks: Ranks, l: nat, p: Ptr) { p == HEAD || In(ranks, l, p) }

  predicate Before(nodes: Heap, ranks: Ranks, l: nat, p: Ptr, q: Ptr) {
    && p in nodes && q in nodes
    && (|| nodes[p].key < nodes[q].key
        || (nodes[p].key == nodes[q].key && In(ranks, l, q) && (In(ranks, l, p) ==> ranks[l - 1][q] < ranks[l - 1][p])))
  }

  // ---------------------------------------------------------------------------
  // The invariant
  // ---------------------------------------------------------------------------

  ghost predicate MemberOk(nodes: Heap, up: Towers, ranks: Ranks, l: nat, p: Ptr) {
    In(ranks, l, p) ==>
      && Has(up, p, l) && p in nodes && p != HEAD && p != TAIL && ranks[l - 1][p] < |ranks[l - 1]|
      && (l > 1 ==> In(ranks, l - 1, p))
  }

  ghost predicate LinkRanked(nodes: Heap, up: Towers, ranks: Ranks, l: nat, p: Ptr) {
    Has(up, p, l) && p != TAIL ==>
      Known(ranks, l, At(up, p, l).next) && Before(nodes, ranks, l, p, At(up, p, l).next)
  }

  ghost predicate HeadLinked(up: Towers, l: nat) { Has(up, HEAD, l) ==> !At(up, HEAD, l).marked }

  ghost predicate RanksOk(m: nat, nodes: Heap, up: Towers, ranks: Ranks) {
    && |ranks| == m
    && (forall l: nat, p {:trigger MemberOk(nodes, up, ranks, l, p)} :: MemberOk(nodes, up, ranks, l, p))
    && (forall l: nat, p {:trigger LinkRanked(nodes, up, ranks, l, p)} :: LinkRanked(nodes, up, ranks, l, p))
    && (forall l: nat {:trigger HeadLinked(up, l)} :: HeadLinked(up, l))
  }

  // What a search found on level `l`.
  ghost predicate NotedRank(nodes: Heap, ranks: Ranks, key: real, reg: Reg, l: nat) {
    && 1 <= l <= |reg.preds| && l <= |reg.succs|
    && Entry(ranks, l, reg.preds[l - 1]) && reg.preds[l - 1] in nodes && nodes[reg.preds[l - 1]].key < key
    && Known(ranks, l, reg.succs[l - 1]) && reg.succs[l - 1] in nodes && key <= nodes[reg.succs[l - 1]].key
  }

  ghost predicate NotedAbove(m: nat, nodes: Heap, ranks: Ranks, key: real, reg: Reg, level: nat) {
    forall l: nat {:trigger NotedRank(nodes, ranks, key, reg, l)} :: level < l <= m ==>
      NotedRank(nodes, ranks, key, reg, l)
  }

  predicate Linking(pc: Pc, reg: Reg) { Helping(pc) || reg.phase.Store? || reg.phase.Join? }

  // An insert's own node is linked up to the level it is at.
  ghost predicate OwnRank(nodes: Heap, ranks: Ranks, key: real, reg: Reg) {
    && reg.node in nodes && nodes[reg.node].key == key
    && forall l: nat {:trigger In(ranks, l, reg.node)} :: 1 <= l ==> (In(ranks, l, reg.node) <==> l < reg.rung)
  }

  ghost predicate SearchRank(m: nat, nodes: Heap, ranks: Ranks, key: real, pc: Pc, reg: Reg, l: nat) {
    pc.Route? && (l >= 1 ==> Entry(ranks, l, pc.start)) && NotedAbove(m, nodes, ranks, key, reg, l)
  }

  ghost predicate PhaseRank(m: nat, nodes: Heap, ranks: Ranks, key: real, pc: Pc, reg: Reg) {
    match reg.phase
    case Descend(l) => SearchRank(m, nodes, ranks, key, pc, reg, l)
    case Walk(l, curr) => SearchRank(m, nodes, ranks, key, pc, reg, l) && Known(ranks, l, curr)
    case Cut(l, curr, succ) =>
      && SearchRank(m, nodes, ranks, key, pc, reg, l) && In(ranks, l, curr) && Known(ranks, l, succ)
      && Before(nodes, ranks, l, curr, succ)
    case _ => pc.Idle? || pc.Returned? || NotedAbove(m, nodes, ranks, key, reg, 0)
  }

  ghost predicate ThreadRank(m: nat, nodes: Heap, ranks: Ranks, key: real, pc: Pc, reg: Reg) {
    PhaseRank(m, nodes, ranks, key, pc, reg) && (Linking(pc, reg) ==> OwnRank(nodes, ranks, key, reg))
  }

  ghost predicate RankInv(m: nat, s: Tower.State, ranks: Ranks) {
    && RanksOk(m, s.base.g.nodes, s.up, ranks) && s.regs.Keys == s.base.threads.Keys
    && (forall t {:trigger s.regs[t]} :: t in s.regs ==>
          ThreadRank(m, s.base.g.nodes, ranks, s.base.threads[t].key, s.base.threads[t].pc, s.regs[t]))
    && (forall t, u {:trigger Apart(s, t, u)} :: t != u ==> Apart(s, t, u))
  }

  // No two inserts link the same node.
  ghost predicate Apart(s: Tower.State, t: Tid, u: Tid) {
    LinkingAt(s, t) && LinkingAt(s, u) ==> s.regs[t].node != s.regs[u].node
  }

  ghost predicate LinkingAt(s: Tower.State, t: Tid) {
    t in s.regs && t in s.base.threads && Linking(s.base.threads[t].pc, s.regs[t])
  }

  // ---------------------------------------------------------------------------
  // The order
  // ---------------------------------------------------------------------------

  lemma BeforeOn(nodes: Heap, ranks: Ranks, l: nat, p: Ptr, q: Ptr, r: Ptr)
    requires Before(nodes, ranks, l, p, q) && Before(nodes, ranks, l, q, r)
    ensures Before(nodes, ranks, l, p, r)
  {
  }

  // Node `n` is linked on level `level` now.
  function Ranked(ranks: Ranks, level: nat, n: Ptr): Ranks
    requires 1 <= level <= |ranks|
  {
    var next: nat := |ranks[level - 1]|;
    var order: map<Ptr, nat> := ranks[level - 1][n := next];
    ranks[level - 1 := order]
  }

  // Keys stay, nodes come.
  ghost predicate KeysStay(nodes: Heap, nodes': Heap) {
    forall p :: p in nodes ==> p in nodes' && nodes'[p].key == nodes[p].key
  }

  lemma NotedStay(m: nat, nodes: Heap, nodes': Heap, ranks: Ranks, key: real, reg: Reg, reg': Reg, level: nat)
    requires NotedAbove(m, nodes, ranks, key, reg, level) && KeysStay(nodes, nodes')
    requires reg'.preds == reg.preds && reg'.succs == reg.succs
    ensures NotedAbove(m, nodes', ranks, key, reg', level)
  {
    forall l: nat | level < l <= m ensures NotedRank(nodes', ranks, key, reg', l) {
      assert NotedRank(nodes, ranks, key, reg, l);
    }
  }

  // Nodes are linked, and keep their numbers.
  ghost predicate Grows(ranks: Ranks, ranks': Ranks) {
    && |ranks'| == |ranks|
    && forall l: nat, p {:trigger In(ranks, l, p)} :: In(ranks, l, p) ==>
         In(ranks', l, p) && ranks'[l - 1][p] == ranks[l - 1][p]
  }

  lemma RankedGrows(ranks: Ranks, level: nat, n: Ptr)
    requires 1 <= level <= |ranks| && n !in ranks[level - 1]
    ensures Grows(ranks, Ranked(ranks, level, n))
    ensures forall l: nat, p :: In(Ranked(ranks, level, n), l, p) <==> In(ranks, l, p) || (l == level && p == n)
  {
  }

  lemma NotedGrow(m: nat, nodes: Heap, nodes': Heap, ranks: Ranks, ranks': Ranks, key: real, reg: Reg, level: nat)
    requires NotedAbove(m, nodes, ranks, key, reg, level) && KeysStay(nodes, nodes') && Grows(ranks, ranks')
    ensures NotedAbove(m, nodes', ranks', key, reg, level)
  {
    forall l: nat | level < l <= m ensures NotedRank(nodes', ranks', key, reg, l) {
      assert NotedRank(nodes, ranks, key, reg, l);
    }
  }

  // Where the thread's searches have been.
  function Floor(phase: Phase): nat {
    match phase
    case Descend(l) => l
    case Walk(l, _) => l
    case Cut(l, _, _) => l
    case _ => 0
  }

  lemma PhaseGrows(m: nat, nodes: Heap, nodes': Heap, ranks: Ranks, ranks': Ranks, key: real, pc: Pc, reg: Reg)
    requires PhaseRank(m, nodes, ranks, key, pc, reg) && KeysStay(nodes, nodes') && Grows(ranks, ranks')
    ensures PhaseRank(m, nodes', ranks', key, pc, reg)
  {
    hide NotedAbove;
    if NotedAbove(m, nodes, ranks, key, reg, Floor(reg.phase)) {
      NotedGrow(m, nodes, nodes', ranks, ranks', key, reg, Floor(reg.phase));
    }
  }

  // A thread that does not move, while another one may link its node.
  lemma RankStays(m: nat, nodes: Heap, nodes': Heap, ranks: Ranks, ranks': Ranks, key: real, pc: Pc, reg: Reg)
    requires ThreadRank(m, nodes, ranks, key, pc, reg) && KeysStay(nodes, nodes') && Grows(ranks, ranks')
    requires Linking(pc, reg) ==> forall l: nat :: In(ranks', l, reg.node) ==> In(ranks, l, reg.node)
    ensures ThreadRank(m, nodes', ranks', key, pc, reg)
  {
    hide PhaseRank, Before;
    PhaseGrows(m, nodes, nodes', ranks, ranks', key, pc, reg);
    if Linking(pc, reg) {
      forall l: nat | 1 <= l ensures In(ranks', l, reg.node) <==> l < reg.rung {
        assert In(ranks, l, reg.node) <==> l < reg.rung;
      }
    }
  }

  // ---------------------------------------------------------------------------
  // The thread that moves
  // ---------------------------------------------------------------------------

  ghost predicate Joins(g: Shared, th: Thread, reg: Reg, up: Towers, a: Act) {
    && a.Move? && reg.phase.Join? && 1 <= reg.phase.level <= |reg.preds| && reg.phase.level <= |reg.succs|
    && Has(up, reg.preds[reg.phase.level - 1], reg.phase.level)
    && At(up, reg.preds[reg.phase.level - 1], reg.phase.level) == Link(reg.succs[reg.phase.level - 1], false)
  }

  ghost function RanksAfter(g: Shared, th: Thread, reg: Reg, up: Towers, a: Act, ranks: Ranks): Ranks {
    if Joins(g, th, reg, up, a) && reg.phase.level <= |ranks| then Ranked(ranks, reg.phase.level, reg.node) else ranks
  }

  ghost predicate Moving(m: nat, g: Shared, th: Thread, reg: Reg, up: Towers, a: Act, ranks: Ranks) {
    && MoverOk(m, g, th, reg, up) && Ready(m, g, th, reg, up, a) && StepUp(m, g, th, reg, up, a)
    && RanksOk(m, g.nodes, up, ranks) && ThreadRank(m, g.nodes, ranks, th.key, th.pc, reg)
  }

  ghost predicate Moved(m: nat, g: Shared, th: Thread, reg: Reg, up: Towers, a: Act, ranks: Ranks)
    requires Ready(m, g, th, reg, up, a)
  {
    var (b, reg', up') := Effect(m, g, th, reg, up, a);
    var ranks' := RanksAfter(g, th, reg, up, a, ranks);
    && Enabled(g, th, b)
    && var (th', g') := Outcome(g, th, b);
    RanksOk(m, g'.nodes, up', ranks') && ThreadRank(m, g'.nodes, ranks', th'.key, th'.pc, reg')
  }

  lemma PutRanked(m: nat, nodes: Heap, up: Towers, ranks: Ranks, p: Ptr, level: nat, link: Link)
    requires RanksOk(m, nodes, up, ranks) && Has(up, p, level) && p != TAIL
    requires Known(ranks, level, link.next) && Before(nodes, ranks, level, p, link.next) && (p == HEAD ==> !link.marked)
    ensures RanksOk(m, nodes, Put(up, p, level, link), ranks)
  {
    var up' := Put(up, p, level, link);
    forall l: nat, q ensures MemberOk(nodes, up', ranks, l, q) { assert MemberOk(nodes, up, ranks, l, q); }
    forall l: nat, q ensures LinkRanked(nodes, up', ranks, l, q) { assert LinkRanked(nodes, up, ranks, l, q); }
    forall l: nat ensures HeadLinked(up', l) { assert HeadLinked(up, l); }
  }

  lemma RankedOk(m: nat, nodes: Heap, up: Towers, ranks: Ranks, level: nat, n: Ptr)
    requires RanksOk(m, nodes, up, ranks) && 1 <= level <= |ranks| && n !in ranks[level - 1]
    requires Has(up, n, level) && n in nodes && n != HEAD && n != TAIL && (level > 1 ==> In(ranks, level - 1, n))
    ensures RanksOk(m, nodes, up, Ranked(ranks, level, n))
  {
    var ranks' := Ranked(ranks, level, n);
    assert |ranks'[level - 1]| == |ranks[level - 1]| + 1;
    forall l: nat, q ensures MemberOk(nodes, up, ranks', l, q) {
      assert MemberOk(nodes, up, ranks, l, q);
    }
    forall l: nat, q ensures LinkRanked(nodes, up, ranks', l, q) {
      assert LinkRanked(nodes, up, ranks, l, q);
      if Has(up, q, l) && q != TAIL { assert MemberOk(nodes, up, ranks, l, At(up, q, l).next); }
    }
  }

  lemma LinksHere(m: nat, nodes: Heap, up: Towers, ranks: Ranks, l: nat, p: Ptr)
    requires RanksOk(m, nodes, up, ranks)
    ensures MemberOk(nodes, up, ranks, l, p) && LinkRanked(nodes, up, ranks, l, p) && HeadLinked(up, l) && |ranks| == m
  {
  }

  lemma StartRank(m: nat, g: Shared, th: Thread, reg: Reg, up: Towers, a: Act, ranks: Ranks)
    requires Moving(m, g, th, reg, up, a, ranks) && a.Start?
    ensures Moved(m, g, th, reg, up, a, ranks)
  {
    hide ListInv, ThreadOk, TowersOk, RegOk, RanksOk;
  }

  lemma DescendRank(m: nat, g: Shared, th: Thread, reg: Reg, up: Towers, a: Act, ranks: Ranks)
    requires Moving(m, g, th, reg, up, a, ranks) && a.Move? && reg.phase.Descend?
    ensures Moved(m, g, th, reg, up, a, ranks)
  {
    hide ListInv, ThreadOk, TowersOk, RegOk, RanksOk, NotedAbove;
    HeadIsLow(g, th);
    LinksHere(m, g.nodes, up, ranks, reg.phase.level, th.pc.start);
    NotedStay(m, g.nodes, g.nodes, ranks, th.key, reg, Effect(m, g, th, reg, up, a).1, reg.phase.level);
  }

  lemma WalkRank(m: nat, g: Shared, th: Thread, reg: Reg, up: Towers, a: Act, ranks: Ranks)
    requires Moving(m, g, th, reg, up, a, ranks) && a.Move? && reg.phase.Walk?
    ensures Moved(m, g, th, reg, up, a, ranks)
  {
    hide ListInv, ThreadOk, TowersOk, RanksOk, NotedAbove, Noted, Before, OwnOk;
    HeadIsLow(g, th);
    var Walk(level, curr) := reg.phase;
    var reg' := Effect(m, g, th, reg, up, a).1;
    LinksHere(m, g.nodes, up, ranks, level, curr);
    LinksHere(m, g.nodes, up, ranks, level, th.pc.start);
    TailUnmarked(m, g.nodes, up, level);
    if !At(up, curr, level).marked && g.nodes[curr].key >= th.key {
      StopRank(m, g.nodes, ranks, th.key, th.pc, reg, reg', level);
    } else {
      NotedStay(m, g.nodes, g.nodes, ranks, th.key, reg, reg', level);
    }
  }

  lemma StopRank(m: nat, nodes: Heap, ranks: Ranks, key: real, pc: Pc, reg: Reg, reg': Reg, level: nat)
    requires SearchRank(m, nodes, ranks, key, pc, reg, level) && reg.phase.Walk? && reg.phase.level == level >= 1
    requires level <= |reg.preds| && level <= |reg.succs| && pc.start in nodes && nodes[pc.start].key < key
    requires Known(ranks, level, reg.phase.curr) && reg.phase.curr in nodes && key <= nodes[reg.phase.curr].key
    requires reg' == reg.(phase := Descend(level - 1), preds := reg.preds[level - 1 := pc.start],
                          succs := reg.succs[level - 1 := reg.phase.curr])
    ensures NotedAbove(m, nodes, ranks, key, reg', level - 1)
  {
    forall l: nat | level - 1 < l <= m ensures NotedRank(nodes, ranks, key, reg', l) {
      assert l > level ==> NotedRank(nodes, ranks, key, reg, l);
    }
  }

  lemma CutRank(m: nat, g: Shared, th: Thread, reg: Reg, up: Towers, a: Act, ranks: Ranks)
    requires Moving(m, g, th, reg, up, a, ranks) && a.Move? && reg.phase.Cut?
    ensures Moved(m, g, th, reg, up, a, ranks)
  {
    hide ListInv, ThreadOk, TowersOk, RanksOk, NotedAbove, Noted, Before, OwnOk, Put;
    HeadIsLow(g, th);
    var Cut(level, curr, succ) := reg.phase;
    var reg' := Effect(m, g, th, reg, up, a).1;
    LinksHere(m, g.nodes, up, ranks, level, th.pc.start);
    if At(up, th.pc.start, level) == Link(curr, false) {
      BeforeOn(g.nodes, ranks, level, th.pc.start, curr, succ);
      PutRanked(m, g.nodes, up, ranks, th.pc.start, level, Link(succ, false));
      NotedStay(m, g.nodes, g.nodes, ranks, th.key, reg, reg', level);
    } else {
      NothingAboveTop(m, g.nodes, ranks, th.key, reg');
    }
  }

  lemma NothingAboveTop(m: nat, nodes: Heap, ranks: Ranks, key: real, reg: Reg)
    ensures NotedAbove(m, nodes, ranks, key, reg, m)
  {
  }

  lemma NotedOf(m: nat, nodes: Heap, ranks: Ranks, key: real, reg: Reg, l: nat)
    requires NotedAbove(m, nodes, ranks, key, reg, 0) && 1 <= l <= m
    ensures NotedRank(nodes, ranks, key, reg, l)
  {
  }

  // A new node's link, or one that is written before it is linked, leads ahead.
  lemma AheadOf(nodes: Heap, ranks: Ranks, key: real, l: nat, n: Ptr, succ: Ptr)
    requires n in nodes && nodes[n].key == key < POS_INF && !In(ranks, l, n)
    requires Known(ranks, l, succ) && succ in nodes && key <= nodes[succ].key
    requires TAIL in nodes && nodes[TAIL].key == POS_INF
    ensures Before(nodes, ranks, l, n, succ)
  {
  }

  lemma StoreRank(m: nat, g: Shared, th: Thread, reg: Reg, up: Towers, a: Act, ranks: Ranks)
    requires Moving(m, g, th, reg, up, a, ranks) && a.Move? && reg.phase.Store?
    ensures Moved(m, g, th, reg, up, a, ranks)
  {
    hide ListInv, ThreadOk, TowersOk, RanksOk, NotedAbove, Noted, Before, Put;
    var level := reg.phase.level;
    var reg' := Effect(m, g, th, reg, up, a).1;
    Sentinel(g, th);
    NotedOf(m, g.nodes, ranks, th.key, reg, level);
    assert In(ranks, level, reg.node) <==> level < reg.rung;
    AheadOf(g.nodes, ranks, th.key, level, reg.node, reg.succs[level - 1]);
    PutRanked(m, g.nodes, up, ranks, reg.node, level, Link(reg.succs[level - 1], false));
    NotedStay(m, g.nodes, g.nodes, ranks, th.key, reg, reg', 0);
    SameOwn(g.nodes, ranks, th.key, reg, reg');
  }

  lemma Sentinel(g: Shared, th: Thread)
    requires ListInv(g) && ThreadOk(g, th) && Active(th)
    ensures TAIL in g.nodes && g.nodes[TAIL].key == POS_INF && NEG_INF < th.key < POS_INF
    ensures HEAD in g.nodes && g.nodes[HEAD].key == NEG_INF
  {
  }

  lemma SameOwn(nodes: Heap, ranks: Ranks, key: real, reg: Reg, reg': Reg)
    requires OwnRank(nodes, ranks, key, reg) && reg'.node == reg.node && reg'.rung == reg.rung
    ensures OwnRank(nodes, ranks, key, reg')
  {
  }

  lemma JoinRank(m: nat, g: Shared, th: Thread, reg: Reg, up: Towers, a: Act, ranks: Ranks)
    requires Moving(m, g, th, reg, up, a, ranks) && a.Move? && reg.phase.Join?
    ensures Moved(m, g, th, reg, up, a, ranks)
  {
    hide ListInv, ThreadOk, TowersOk, RanksOk, NotedAbove, Noted, Before, Put, Ranked;
    var level := reg.phase.level;
    var reg' := Effect(m, g, th, reg, up, a).1;
    Sentinel(g, th);
    NotedOf(m, g.nodes, ranks, th.key, reg, level);
    LinksHere(m, g.nodes, up, ranks, level, reg.node);
    if Joins(g, th, reg, up, a) {
      var ranks' := Ranked(ranks, level, reg.node);
      JoinedOk(m, g.nodes, up, ranks, th.key, reg, level);
      NotedGrow(m, g.nodes, g.nodes, ranks, ranks', th.key, reg, 0);
      NotedStay(m, g.nodes, g.nodes, ranks', th.key, reg, reg', 0);
      OneMore(g.nodes, ranks, th.key, reg, reg', level);
    } else {
      NothingAboveTop(m, g.nodes, ranks, th.key, reg');
      SameOwn(g.nodes, ranks, th.key, reg, reg');
    }
  }

  lemma OneMore(nodes: Heap, ranks: Ranks, key: real, reg: Reg, reg': Reg, level: nat)
    requires OwnRank(nodes, ranks, key, reg) && 1 <= level == reg.rung <= |ranks|
    requires reg'.node == reg.node && reg'.rung == level + 1
    ensures OwnRank(nodes, Ranked(ranks, level, reg.node), key, reg')
  {
    var ranks' := Ranked(ranks, level, reg.node);
    forall l: nat | 1 <= l ensures In(ranks', l, reg.node) <==> l < level + 1 {
      assert In(ranks, l, reg.node) <==> l < reg.rung;
    }
  }

  lemma JoinedOk(m: nat, nodes: Heap, up: Towers, ranks: Ranks, key: real, reg: Reg, level: nat)
    requires RanksOk(m, nodes, up, ranks) && OwnRank(nodes, ranks, key, reg) && 1 <= level == reg.rung <= m
    requires NotedRank(nodes, ranks, key, reg, level) && Has(up, reg.preds[level - 1], level)
    requires Has(up, reg.node, level) && NEG_INF < key < POS_INF
    requires HEAD in nodes && nodes[HEAD].key == NEG_INF && TAIL in nodes && nodes[TAIL].key == POS_INF
    ensures Grows(ranks, Ranked(ranks, level, reg.node))
    ensures RanksOk(m, nodes, Put(up, reg.preds[level - 1], level, Link(reg.node, false)),
                    Ranked(ranks, level, reg.node))
  {
    hide RanksOk, Put, Ranked;
    var n := reg.node;
    LinksHere(m, nodes, up, ranks, level, n);
    assert In(ranks, level, n) <==> level < reg.rung;
    if level > 1 { assert In(ranks, level - 1, n) <==> level - 1 < reg.rung; }
    RankedOk(m, nodes, up, ranks, level, n);
    RankedGrows(ranks, level, n);
    PutRanked(m, nodes, up, Ranked(ranks, level, n), reg.preds[level - 1], level, Link(n, false));
  }

  lemma LookRank(m: nat, g: Shared, th: Thread, reg: Reg, up: Towers, a: Act, ranks: Ranks)
    requires Moving(m, g, th, reg, up, a, ranks) && a.Move? && (reg.phase.Look? || reg.phase.Flag?)
    ensures Moved(m, g, th, reg, up, a, ranks)
  {
    hide ListInv, ThreadOk, TowersOk, RanksOk, NotedAbove, Noted, Before, Put;
    LoadSuccNode(g, th);
    var level := reg.phase.level;
    LinksHere(m, g.nodes, up, ranks, level, th.pc.node);
    NotedStay(m, g.nodes, g.nodes, ranks, th.key, reg, Effect(m, g, th, reg, up, a).1, 0);
    if reg.phase.Flag? && At(up, th.pc.node, level) == Link(reg.phase.succ, false) {
      PutRanked(m, g.nodes, up, ranks, th.pc.node, level, Link(reg.phase.succ, true));
    }
  }

  lemma RanksKeys(m: nat, nodes: Heap, nodes': Heap, up: Towers, ranks: Ranks)
    requires RanksOk(m, nodes, up, ranks) && KeysStay(nodes, nodes')
    ensures RanksOk(m, nodes', up, ranks)
  {
    forall l: nat, q ensures MemberOk(nodes', up, ranks, l, q) { assert MemberOk(nodes, up, ranks, l, q); }
    forall l: nat, q ensures LinkRanked(nodes', up, ranks, l, q) { assert LinkRanked(nodes, up, ranks, l, q); }
  }

  // A new node, with a tower that leads ahead.
  lemma AddRanked(m: nat, nodes: Heap, up: Towers, ranks: Ranks, n: Ptr, tower: seq<Link>)
    requires RanksOk(m, nodes, up, ranks) && n !in up && n != HEAD && n in nodes
    requires forall l {:trigger tower[l]} :: 0 <= l < |tower| ==>
      Known(ranks, l + 1, tower[l].next) && Before(nodes, ranks, l + 1, n, tower[l].next)
    ensures RanksOk(m, nodes, up[n := tower], ranks)
  {
    var up' := up[n := tower];
    forall l: nat, q ensures MemberOk(nodes, up', ranks, l, q) { assert MemberOk(nodes, up, ranks, l, q); }
    forall l: nat, q ensures LinkRanked(nodes, up', ranks, l, q) {
      assert LinkRanked(nodes, up, ranks, l, q);
      if q == n && Has(up', q, l) { assert tower[l - 1] == At(up', q, l); }
    }
    forall l: nat ensures HeadLinked(up', l) { assert HeadLinked(up, l); }
  }

  lemma NotMember(m: nat, nodes: Heap, up: Towers, ranks: Ranks, n: Ptr)
    requires RanksOk(m, nodes, up, ranks) && n !in nodes
    ensures forall l: nat :: !In(ranks, l, n)
  {
    forall l: nat ensures !In(ranks, l, n) { assert MemberOk(nodes, up, ranks, l, n); }
  }

  lemma PublishRank(m: nat, g: Shared, g': Shared, th: Thread, reg: Reg, up: Towers, n: Ptr, ranks: Ranks)
    requires RanksOk(m, g.nodes, up, ranks) && NotedAbove(m, g.nodes, ranks, th.key, reg, 0)
    requires KeysStay(g.nodes, g'.nodes) && n !in g.nodes && n !in up && n in g'.nodes && g'.nodes[n].key == th.key
    requires NEG_INF < th.key < POS_INF && TAIL in g'.nodes && g'.nodes[TAIL].key == POS_INF && HEAD in g.nodes
    requires th.pc.Publish? && CasOk(g.nodes, th.pc.pred, th.pc.succ) && reg.top <= m && |reg.succs| == m
    ensures RanksOk(m, g'.nodes, AfterPublish(g, th, reg, up, n), ranks)
    ensures forall l: nat :: !In(ranks, l, n)
  {
    hide RanksOk, NotedAbove, CasOk;
    NotMember(m, g.nodes, up, ranks, n);
    RanksKeys(m, g.nodes, g'.nodes, up, ranks);
    var tower := AfterPublish(g, th, reg, up, n)[n];
    forall l {:trigger tower[l]} | 0 <= l < |tower|
      ensures Known(ranks, l + 1, tower[l].next) && Before(g'.nodes, ranks, l + 1, n, tower[l].next)
    {
      NotedOf(m, g.nodes, ranks, th.key, reg, l + 1);
      AheadOf(g'.nodes, ranks, th.key, l + 1, n, tower[l].next);
    }
    AddRanked(m, g'.nodes, up, ranks, n, tower);
  }

  // What a step on level 0 leaves of the thread's key and of a published node's.
  lemma PublishedKey(g: Shared, th: Thread, n: Ptr)
    requires Enabled(g, th, Go(n))
    ensures
      var (th', g') := Outcome(g, th, Go(n));
      && th'.key == th.key
      && (th.pc.Publish? && CasOk(g.nodes, th.pc.pred, th.pc.succ) ==>
            n in g'.nodes && g'.nodes[n].key == th.key && n !in g.nodes)
  {
    hide AfterLoad, Counted;
  }

  lemma RelyKeys(g: Shared, g': Shared)
    requires Rely(g.nodes, g.linked, g'.nodes, g'.linked)
    ensures KeysStay(g.nodes, g'.nodes)
  {
  }

  // The registers after a step on level 0.
  lemma GoRank(m: nat, g: Shared, th: Thread, reg: Reg, up: Towers, n: Ptr, ranks: Ranks)
    requires Enabled(g, th, Go(n)) && reg.phase.Below? && PcMoves(g, th, n) && !th.pc.Route?
    requires ThreadRank(m, g.nodes, ranks, th.key, th.pc, reg)
    requires KeysStay(g.nodes, Outcome(g, th, Go(n)).1.nodes)
    requires th.pc.Publish? && CasOk(g.nodes, th.pc.pred, th.pc.succ) ==>
      && n in Outcome(g, th, Go(n)).1.nodes && Outcome(g, th, Go(n)).1.nodes[n].key == th.key
      && forall l: nat :: !In(ranks, l, n)
    ensures
      var (th', g') := Outcome(g, th, Go(n));
      ThreadRank(m, g'.nodes, ranks, th.key, th'.pc, AfterGo(m, up, reg, th.pc, th'.pc, n))
  {
    hide Enabled, Outcome, CasOk, NotedAbove, OwnRank;
    var (th', g') := Outcome(g, th, Go(n));
    var reg' := AfterGo(m, up, reg, th.pc, th'.pc, n);
    NotedStay(m, g.nodes, g'.nodes, ranks, th.key, reg, reg', 0);
    NothingAboveTop(m, g'.nodes, ranks, th.key, reg');
    if Linking(th.pc, reg) { OwnKeys(g.nodes, g'.nodes, ranks, th.key, reg); }
    if Linking(th'.pc, reg') {
      if th.pc.Publish? {
        OwnNew(g'.nodes, ranks, th.key, reg');
      } else {
        SameOwn(g'.nodes, ranks, th.key, reg, reg');
      }
    }
  }

  lemma OwnKeys(nodes: Heap, nodes': Heap, ranks: Ranks, key: real, reg: Reg)
    requires OwnRank(nodes, ranks, key, reg) && KeysStay(nodes, nodes')
    ensures OwnRank(nodes', ranks, key, reg)
  {
  }

  lemma OwnNew(nodes: Heap, ranks: Ranks, key: real, reg: Reg)
    requires reg.node in nodes && nodes[reg.node].key == key && reg.rung == 1
    requires forall l: nat :: !In(ranks, l, reg.node)
    ensures OwnRank(nodes, ranks, key, reg)
  {
  }

  lemma BelowRank(m: nat, g: Shared, th: Thread, reg: Reg, up: Towers, a: Act, ranks: Ranks)
    requires Moving(m, g, th, reg, up, a, ranks) && a.Move? && reg.phase.Below?
    ensures Moved(m, g, th, reg, up, a, ranks)
  {
    hide ListInv, ThreadOk, TowersOk, RanksOk, NotedAbove, Noted, Outcome, CasOk, ThreadRank, AfterGo, AfterPublish,
      KeysStay;
    var n := a.memory;
    var (th', g') := Outcome(g, th, Go(n));
    PcAfterGo(g, th, n);
    ListKept(g, th, Go(n));
    RelyKeys(g, g');
    PublishedKey(g, th, n);
    RanksKeys(m, g.nodes, g'.nodes, up, ranks);
    UpKeys(m, g.nodes, up, n);
    if th.pc.Publish? && CasOk(g.nodes, th.pc.pred, th.pc.succ) {
      Sentinel(g, th);
      TailStays(g');
      NotedSizes(m, up, reg, 0);
      ThreadNoted(m, g.nodes, ranks, th.key, th.pc, reg);
      PublishRank(m, g, g', th, reg, up, n, ranks);
    } else {
      NoTower(g, th, reg, up, n);
    }
    GoRank(m, g, th, reg, up, n, ranks);
  }

  lemma NoTower(g: Shared, th: Thread, reg: Reg, up: Towers, n: Ptr)
    requires reg.top <= |reg.succs| && !(th.pc.Publish? && CasOk(g.nodes, th.pc.pred, th.pc.succ))
    ensures AfterPublish(g, th, reg, up, n) == up
  {
  }

  lemma TailStays(g: Shared)
    requires ListInv(g)
    ensures TAIL in g.nodes && g.nodes[TAIL].key == POS_INF
  {
  }

  lemma ThreadNoted(m: nat, nodes: Heap, ranks: Ranks, key: real, pc: Pc, reg: Reg)
    requires ThreadRank(m, nodes, ranks, key, pc, reg) && reg.phase.Below? && pc.Publish?
    ensures NotedAbove(m, nodes, ranks, key, reg, 0)
  {
  }

  lemma MoverRank(m: nat, g: Shared, th: Thread, reg: Reg, up: Towers, a: Act, ranks: Ranks)
    requires Moving(m, g, th, reg, up, a, ranks)
    ensures Moved(m, g, th, reg, up, a, ranks)
  {
    hide MoverOk, StepUp, RanksOk, ThreadRank, Moved;
    if a.Start? { StartRank(m, g, th, reg, up, a, ranks); }
    else if reg.phase.Below? { BelowRank(m, g, th, reg, up, a, ranks); }
    else if reg.phase.Descend? { DescendRank(m, g, th, reg, up, a, ranks); }
    else if reg.phase.Walk? { WalkRank(m, g, th, reg, up, a, ranks); }
    else if reg.phase.Cut? { CutRank(m, g, th, reg, up, a, ranks); }
    else if reg.phase.Store? { StoreRank(m, g, th, reg, up, a, ranks); }
    else if reg.phase.Join? { JoinRank(m, g, th, reg, up, a, ranks); }
    else { LookRank(m, g, th, reg, up, a, ranks); }
  }

  // An insert that links a node has linked it before, or has just published it.
  lemma LinkingFrom(m: nat, g: Shared, th: Thread, reg: Reg, up: Towers, a: Act)
    requires MoverOk(m, g, th, reg, up) && Ready(m, g, th, reg, up, a)
    requires Enabled(g, th, Effect(m, g, th, reg, up, a).0)
    ensures
      var (b, reg', _) := Effect(m, g, th, reg, up, a);
      Linking(Outcome(g, th, b).0.pc, reg') ==>
        (Linking(th.pc, reg) && reg'.node == reg.node) || (reg'.node !in g.nodes)
  {
    hide ListInv, ThreadOk, TowersOk, Noted, Advance, OwnOk;
    if a.Move? && reg.phase.Below? { PcAfterGo(g, th, a.memory); }
  }

  lemma RankKept(m: nat, s: Tower.State, t: Tid, a: Act, s': Tower.State, ranks: Ranks) returns (ranks': Ranks)
    requires Inv(s.base) && UpInv(m, s) && RankInv(m, s, ranks) && Tower.Next(m, s, t, a, s')
    ensures RankInv(m, s', ranks') && ranks' == RanksAfter(s.base.g, s.base.threads[t], s.regs[t], s.up, a, ranks)
  {
    hide ListInv, ThreadOk, TowersOk, RegOk, Outcome, Enabled, Ready, Effect, RanksOk, ThreadRank, Observe, Linking,
      RanksAfter, KeysStay, Grows, In;
    var g, th, reg, up := s.base.g, s.base.threads[t], s.regs[t], s.up;
    assert ThreadUp(m, s, t);
    assert MoverOk(m, g, th, reg, up);
    MoverUp(m, g, th, reg, up, a);
    MoverRank(m, g, th, reg, up, a, ranks);
    ranks' := RanksAfter(g, th, reg, up, a, ranks);
    var (b, reg', up') := Effect(m, g, th, reg, up, a);
    var (th', g') := Outcome(g, th, b);
    ThreadsAfter(s.base, t, b, s'.base);
    ListKept(g, th, b);
    RelyKeys(g, g');
    LinkingFrom(m, g, th, reg, up, a);
    Observed(th', g');
    forall u | u in s'.regs
      ensures ThreadRank(m, s'.base.g.nodes, ranks', s'.base.threads[u].key, s'.base.threads[u].pc, s'.regs[u])
    {
      if u != t {
        Observed(s.base.threads[u], g');
        assert Apart(s, t, u);
        OtherRanks(m, g, th, reg, up, a, ranks, s.base.threads[u].key, s.base.threads[u].pc, s.regs[u]);
        RankStays(m, g.nodes, g'.nodes, ranks, ranks', s.base.threads[u].key, s.base.threads[u].pc, s.regs[u]);
      }
    }
    forall u, w | u != w ensures Apart(s', u, w) { StillApart(m, s, t, s', ranks, g', u, w); }
  }

  lemma StillApart(m: nat, s: Tower.State, t: Tid, s': Tower.State, ranks: Ranks, g': Shared, u: Tid, w: Tid)
    requires RankInv(m, s, ranks) && u != w && t in s.regs && s'.base.threads.Keys == s.base.threads.Keys
    requires t in s'.regs && s'.regs == s.regs[t := s'.regs[t]]
    requires forall v :: v in s.base.threads && v != t ==>
      s'.base.threads[v] == Observe(s.base.threads[v], g'.nodes, g'.linked)
    requires LinkingAt(s', t) ==>
      (LinkingAt(s, t) && s'.regs[t].node == s.regs[t].node) || s'.regs[t].node !in s.base.g.nodes
    ensures Apart(s', u, w)
  {
    hide RanksOk, PhaseRank, Observe, In;
    assert Apart(s, u, w);
    if u in s.base.threads { Observed(s.base.threads[u], g'); }
    if w in s.base.threads { Observed(s.base.threads[w], g'); }
  }

  // The numbers after the step, for a thread that links another node.
  lemma OtherRanks(m: nat, g: Shared, th: Thread, reg: Reg, up: Towers, a: Act, ranks: Ranks, key: real, pc: Pc,
                   other: Reg)
    requires Moving(m, g, th, reg, up, a, ranks)
    requires Linking(th.pc, reg) && Linking(pc, other) ==> other.node != reg.node
    ensures var ranks' := RanksAfter(g, th, reg, up, a, ranks);
            && Grows(ranks, ranks')
            && (Linking(pc, other) ==> forall l: nat :: In(ranks', l, other.node) ==> In(ranks, l, other.node))
  {
    hide ListInv, ThreadOk, TowersOk, RanksOk, PhaseRank, StepUp;
    if Joins(g, th, reg, up, a) && reg.phase.level <= |ranks| {
      assert In(ranks, reg.phase.level, reg.node) <==> reg.phase.level < reg.rung;
      RankedGrows(ranks, reg.phase.level, reg.node);
    }
  }

  lemma RankStart(m: nat, s: Tower.State) returns (ranks: Ranks)
    requires Tower.Init(m, s)
    ensures RankInv(m, s, ranks)
  {
    ranks := seq(m, _ => map[]);
    var nodes, up := s.base.g.nodes, s.up;
    forall l: nat, q ensures MemberOk(nodes, up, ranks, l, q) {}
    forall l: nat, q ensures LinkRanked(nodes, up, ranks, l, q) {}
    forall l: nat ensures HeadLinked(up, l) {}
  }

  // So in every run each level is free of cycles.
  lemma {:induction false} AlwaysRanked(m: nat, run: seq<Tower.State>, i: nat) returns (ranks: Ranks)
    requires Tower.Behavior(m, run) && i < |run|
    ensures RankInv(m, run[i], ranks)
  {
    hide UpInv, Inv, RankInv, Tower.Next;
    if i == 0 {
      ranks := RankStart(m, run[0]);
    } else {
      ranks := AlwaysRanked(m, run, i - 1);
      BaseInv(m, run, i - 1);
      AlwaysUp(m, run, i - 1);
      assert Tower.StepAt(m, run, i - 1);
      var t, a :| Tower.Next(m, run[i - 1], t, a, run[i]);
      ranks := RankKept(m, run[i - 1], t, a, run[i], ranks);
    }
  }
}
