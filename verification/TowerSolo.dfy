/** One thread alone: every upper level is a sorted chain of nodes that have not been
  * removed, each level part of the one below, and what a remove retires is on none.
  */
module TowerSolo {
  import opened BottomList
  import opened Tower
  import opened TowerClean

  // ---------------------------------------------------------------------------
  // The levels as chains
  // ---------------------------------------------------------------------------

  // A level, cut down to the nodes on it, as a list of its own.
  ghost function Level(nodes: Heap, up: Towers, c: set<Ptr>, l: nat): Heap
    requires forall p :: p in c ==> p in nodes && Has(up, p, l)
  {
    map p | p in c :: Node(nodes[p].key, At(up, p, l).next, At(up, p, l).marked)
  }

  ghost predicate ChainOk(nodes: Heap, up: Towers, c: set<Ptr>, l: nat) {
    && (forall p :: p in c ==> p in nodes && Has(up, p, l))
    && Shape(Level(nodes, up, c, l), c)
  }

  // The chain of level `l` is at index `l - 1`.
  type Chains = seq<set<Ptr>>

  ghost predicate ChainAt(nodes: Heap, up: Towers, chains: Chains, l: nat) {
    1 <= l <= |chains| && ChainOk(nodes, up, chains[l - 1], l)
  }

  predicate OnLevel(chains: Chains, l: nat, p: Ptr) {
    1 <= l <= |chains| && p in chains[l - 1]
  }

  ghost predicate ChainsOk(m: nat, nodes: Heap, up: Towers, chains: Chains) {
    && |chains| == m
    && (forall l: nat {:trigger ChainAt(nodes, up, chains, l)} :: 1 <= l <= m ==> ChainAt(nodes, up, chains, l))
    && (forall l: nat {:trigger chains[l]} :: 1 <= l < m ==> chains[l] <= chains[l - 1])
  }

  // The node a remove is at work on.
  function Target(pc: Pc): Ptr {
    if Victim(pc) != NULL then Victim(pc) else Doomed(pc)
  }

  // Down to which level a remove may find its node still linked.
  function Reach(phase: Phase): nat {
    match phase
    case Descend(l) => l
    case Walk(l, _) => l
    case Cut(l, _, _) => l
    case _ => 0
  }

  // A node on level `l` is there by right, or is being removed and still to be unlinked.
  predicate Rightful(nodes: Heap, up: Towers, pc: Pc, phase: Phase, l: nat, p: Ptr)
    requires p in nodes && Has(up, p, l)
  {
    p == HEAD || p == TAIL ||
    (&& (nodes[p].marked ==> p == Victim(pc) && l <= Reach(phase))
     && (At(up, p, l).marked ==> p == Target(pc)))
  }

  ghost predicate MembersOk(m: nat, nodes: Heap, up: Towers, pc: Pc, phase: Phase, chains: Chains)
    requires ChainsOk(m, nodes, up, chains)
  {
    forall l: nat, p {:trigger OnLevel(chains, l, p)} :: OnLevel(chains, l, p) ==> Member(nodes, up, pc, phase, l, p)
  }

  ghost predicate Member(nodes: Heap, up: Towers, pc: Pc, phase: Phase, l: nat, p: Ptr) {
    p in nodes && Has(up, p, l) && Rightful(nodes, up, pc, phase, l, p)
  }

  // ---------------------------------------------------------------------------
  // The thread
  // ---------------------------------------------------------------------------

  // What the search left behind on level `l` is on that level, on either side of the key.
  ghost predicate BesideAt(nodes: Heap, chains: Chains, key: real, reg: Reg, l: nat) {
    && 1 <= l <= |reg.preds| && l <= |reg.succs|
    && OnLevel(chains, l, reg.preds[l - 1]) && OnLevel(chains, l, reg.succs[l - 1])
    && reg.preds[l - 1] in nodes && nodes[reg.preds[l - 1]].key < key
    && reg.succs[l - 1] in nodes && key <= nodes[reg.succs[l - 1]].key
  }

  ghost predicate Beside(nodes: Heap, chains: Chains, key: real, reg: Reg, level: nat) {
    forall l: nat {:trigger BesideAt(nodes, chains, key, reg, l)} :: level < l <= |chains| ==>
      BesideAt(nodes, chains, key, reg, l)
  }

  // A new node is on the levels below the next one to link, and on no other.
  ghost predicate OwnTidy(nodes: Heap, chains: Chains, key: real, reg: Reg) {
    && reg.node in nodes && !nodes[reg.node].marked && nodes[reg.node].key == key
    && (forall l: nat {:trigger OnLevel(chains, l, reg.node)} :: 1 <= l <= |chains| ==>
          (OnLevel(chains, l, reg.node) <==> l < reg.rung))
  }

  ghost predicate PhaseTidy(m: nat, nodes: Heap, up: Towers, th: Thread, reg: Reg, chains: Chains)
    requires ChainsOk(m, nodes, up, chains)
  {
    match reg.phase
    case Below => true
    case Descend(level) => level <= m && th.pc.Route? && (level >= 1 ==> OnLevel(chains, level, th.pc.start))
    case Walk(level, curr) => Between(m, up, th.pc, chains, level, curr)
    case Cut(level, curr, succ) =>
      Between(m, up, th.pc, chains, level, curr) && Has(up, curr, level) && At(up, curr, level) == Link(succ, true)
    case Store(level) => level == reg.rung
    case Join(level) =>
      && level == reg.rung && 1 <= level <= |reg.succs| && Has(up, reg.node, level)
      && At(up, reg.node, level) == Link(reg.succs[level - 1], false)
    case Look(_) => true
    case Flag(_, _) => true
  }

  // The search is between `start` and its successor on a level.
  ghost predicate Between(m: nat, up: Towers, pc: Pc, chains: Chains, level: nat, curr: Ptr) {
    && level <= m && pc.Route? && OnLevel(chains, level, pc.start) && OnLevel(chains, level, curr)
    && Has(up, pc.start, level) && At(up, pc.start, level).next == curr
  }

  // Nobody else marks or moves what a remove has found.
  predicate FoundTidy(nodes: Heap, pc: Pc) {
    match pc
    case LoadSucc(n) => n in nodes && !nodes[n].marked
    case Mark(n, succ) => n in nodes && nodes[n].next == succ && !nodes[n].marked
    case Recheck(_) => false
    case _ => true
  }

  predicate Linking(pc: Pc, reg: Reg) { reg.phase.Store? || reg.phase.Join? || Helping(pc) }

  ghost predicate ThreadTidy(m: nat, nodes: Heap, up: Towers, th: Thread, reg: Reg, chains: Chains)
    requires ChainsOk(m, nodes, up, chains)
  {
    && PhaseTidy(m, nodes, up, th, reg, chains) && FoundTidy(nodes, th.pc)
    && (Active(th) ==> Beside(nodes, chains, th.key, reg, Reach(reg.phase)))
    && (Linking(th.pc, reg) ==> OwnTidy(nodes, chains, th.key, reg))
  }

  ghost predicate Tidy(m: nat, g: Shared, th: Thread, reg: Reg, up: Towers, chains: Chains) {
    && ChainsOk(m, g.nodes, up, chains)
    && MembersOk(m, g.nodes, up, th.pc, reg.phase, chains)
    && ThreadTidy(m, g.nodes, up, th, reg, chains)
  }

  // ---------------------------------------------------------------------------
  // How chains change
  // ---------------------------------------------------------------------------

  lemma SameChain(nodes: Heap, up: Towers, nodes': Heap, up': Towers, c: set<Ptr>, l: nat)
    requires ChainOk(nodes, up, c, l)
    requires forall p :: p in c ==> p in nodes' && nodes'[p].key == nodes[p].key
    requires forall p :: p in c ==> Has(up', p, l) && At(up', p, l) == At(up, p, l)
    ensures ChainOk(nodes', up', c, l)
  {
    assert Level(nodes', up', c, l) == Level(nodes, up, c, l);
  }

  // Leaving out what is not on the chain.
  lemma Restricted(h: Heap, c: set<Ptr>)
    requires Shape(h, c)
    ensures Shape(map p | p in c :: h[p], c)
  {
    var h' := map p | p in c :: h[p];
    forall p | p in h' && p != TAIL ensures Up(h', p) { assert Up(h, p) && Stays(h, c, p); }
    forall p | p in c && p != TAIL ensures Stays(h', c, p) { assert Stays(h, c, p); }
    forall p, q | p in c && q in c ensures Ordered(h', p, q) {
      assert Ordered(h, p, q);
      assert p != TAIL ==> Stays(h, c, p);
    }
  }

  lemma CutChain(nodes: Heap, up: Towers, c: set<Ptr>, l: nat, pred: Ptr, curr: Ptr, succ: Ptr)
    requires ChainOk(nodes, up, c, l) && pred in c && curr in c && pred != TAIL
    requires At(up, pred, l) == Link(curr, false) && At(up, curr, l) == Link(succ, true)
    ensures ChainOk(nodes, Put(up, pred, l, Link(succ, false)), c - {curr}, l)
    ensures pred in c - {curr} && succ in c - {curr}
  {
    var h := Level(nodes, up, c, l);
    SpliceKeepsShape(h, c, pred, curr, succ);
    var h' := h[pred := h[pred].(next := succ)];
    Restricted(h', c - {curr});
    assert Up(h, pred);
    assert Stays(h', c - {curr}, pred);
    assert Level(nodes, Put(up, pred, l, Link(succ, false)), c - {curr}, l) == map p | p in c - {curr} :: h'[p];
  }

  lemma JoinChain(nodes: Heap, up: Towers, c: set<Ptr>, l: nat, pred: Ptr, succ: Ptr, n: Ptr)
    requires ChainOk(nodes, up, c, l) && pred in c && succ in c && n !in c && n in nodes && n != NULL
    requires At(up, pred, l) == Link(succ, false) && Has(up, n, l) && At(up, n, l) == Link(succ, false)
    requires nodes[pred].key < nodes[n].key < nodes[succ].key && NEG_INF < nodes[n].key < POS_INF
    ensures ChainOk(nodes, Put(up, pred, l, Link(n, false)), c + {n}, l)
  {
    var h := Level(nodes, up, c, l);
    PublishKeepsShape(h, c, pred, succ, n, nodes[n].key);
    var h' := h[n := Node(nodes[n].key, succ, false)][pred := h[pred].(next := n)];
    assert Level(nodes, Put(up, pred, l, Link(n, false)), c + {n}, l) == h';
  }

  lemma FlagChain(nodes: Heap, up: Towers, c: set<Ptr>, l: nat, n: Ptr, succ: Ptr)
    requires ChainOk(nodes, up, c, l) && Has(up, n, l) && At(up, n, l) == Link(succ, false)
    requires n != HEAD && n != TAIL
    ensures ChainOk(nodes, Put(up, n, l, Link(succ, true)), c, l)
  {
    var up' := Put(up, n, l, Link(succ, true));
    if n in c {
      var h := Level(nodes, up, c, l);
      MarkKeepsShape(h, c, n);
      assert Level(nodes, up', c, l) == h[n := h[n].(marked := true)];
    } else {
      SameChain(nodes, up, nodes, up', c, l);
    }
  }

  lemma OffChain(nodes: Heap, up: Towers, c: set<Ptr>, l: nat, n: Ptr, link: Link)
    requires ChainOk(nodes, up, c, l) && n !in c && Has(up, n, l)
    ensures ChainOk(nodes, Put(up, n, l, link), c, l)
  {
    SameChain(nodes, up, nodes, Put(up, n, l, link), c, l);
  }

  // A change of one link of level `level` leaves the other chains alone.
  lemma OtherChains(m: nat, nodes: Heap, up: Towers, chains: Chains, p: Ptr, level: nat, link: Link, c: set<Ptr>)
    requires ChainsOk(m, nodes, up, chains) && Has(up, p, level) && 1 <= level <= m
    requires ChainOk(nodes, Put(up, p, level, link), c, level)
    requires (level < m ==> chains[level] <= c) && (level > 1 ==> c <= chains[level - 2])
    ensures ChainsOk(m, nodes, Put(up, p, level, link), chains[level - 1 := c])
  {
    var up', chains' := Put(up, p, level, link), chains[level - 1 := c];
    forall l: nat | 1 <= l <= m ensures ChainAt(nodes, up', chains', l) {
      if l != level {
        assert ChainAt(nodes, up, chains, l);
        SameChain(nodes, up, nodes, up', chains[l - 1], l);
      }
    }
  }

  // Neighbours on a chain.
  lemma ChainNext(nodes: Heap, up: Towers, c: set<Ptr>, l: nat, p: Ptr)
    requires ChainOk(nodes, up, c, l) && p in c && p != TAIL
    ensures At(up, p, l).next in c && nodes[p].key < nodes[At(up, p, l).next].key
  {
    assert Stays(Level(nodes, up, c, l), c, p) && Up(Level(nodes, up, c, l), p);
  }

  lemma ChainEnds(nodes: Heap, up: Towers, c: set<Ptr>, l: nat)
    requires ChainOk(nodes, up, c, l)
    ensures HEAD in c && TAIL in c && NULL !in c && !At(up, HEAD, l).marked && !At(up, TAIL, l).marked
    ensures nodes[HEAD].key == NEG_INF && nodes[TAIL].key == POS_INF
  {
  }

  // What lies on a chain from the successor's key on is the successor, or behind it.
  lemma ChainSkips(nodes: Heap, up: Towers, c: set<Ptr>, l: nat, p: Ptr, q: Ptr)
    requires ChainOk(nodes, up, c, l) && p in c && q in c && p != TAIL && nodes[p].key < nodes[q].key
    ensures var n := At(up, p, l).next;
            n in c && nodes[n].key <= nodes[q].key && (nodes[n].key == nodes[q].key ==> n == q)
  {
    var h := Level(nodes, up, c, l);
    assert Stays(h, c, p) && Ordered(h, p, q);
    assert Ordered(h, At(up, p, l).next, q);
  }

  // ---------------------------------------------------------------------------
  // The steps on the upper levels
  // ---------------------------------------------------------------------------

  ghost predicate Alone(m: nat, g: Shared, th: Thread, reg: Reg, up: Towers, chains: Chains, a: Act) {
    && MoverOk(m, g, th, reg, up) && Ready(m, g, th, reg, up, a) && StepUp(m, g, th, reg, up, a)
    && Tidy(m, g, th, reg, up, chains) && Capped(g.nodes, up) && SoloOk(up, th.pc, reg)
  }

  ghost predicate TidyAfter(m: nat, g: Shared, th: Thread, reg: Reg, up: Towers, a: Act, chains: Chains)
    requires Ready(m, g, th, reg, up, a)
  {
    var (b, reg', up') := Effect(m, g, th, reg, up, a);
    && Enabled(g, th, b)
    && var (th', g') := Outcome(g, th, b);
    Tidy(m, g', th', reg', up', chains)
  }

  lemma BesideFewer(nodes: Heap, chains: Chains, key: real, reg: Reg, reg': Reg, level: nat, level': nat)
    requires Beside(nodes, chains, key, reg, level) && level <= level'
    requires reg'.preds == reg.preds && reg'.succs == reg.succs
    ensures Beside(nodes, chains, key, reg', level')
  {
    forall l: nat | level' < l <= |chains| ensures BesideAt(nodes, chains, key, reg', l) {
      assert BesideAt(nodes, chains, key, reg, l);
    }
  }

  lemma MembersMove(m: nat, nodes: Heap, up: Towers, chains: Chains, pc: Pc, phase: Phase, pc': Pc, phase': Phase)
    requires ChainsOk(m, nodes, up, chains) && MembersOk(m, nodes, up, pc, phase, chains)
    requires Victim(pc') == Victim(pc) && Target(pc') == Target(pc) && Reach(phase) <= Reach(phase')
    ensures MembersOk(m, nodes, up, pc', phase', chains)
  {
    forall l: nat, p | OnLevel(chains, l, p) ensures Member(nodes, up, pc', phase', l, p) {
      assert Member(nodes, up, pc, phase, l, p);
    }
  }

  lemma StartTidy(m: nat, g: Shared, th: Thread, reg: Reg, up: Towers, chains: Chains, a: Act)
    requires Alone(m, g, th, reg, up, chains, a) && a.Start?
    ensures TidyAfter(m, g, th, reg, up, a, chains)
  {
    hide ListInv, ThreadOk, TowersOk, Noted, Capped, ChainOk;
    var (b, reg', _) := Effect(m, g, th, reg, up, a);
    MembersMove(m, g.nodes, up, chains, th.pc, reg.phase, Route(a.goal, HEAD), reg'.phase);
    if m >= 1 {
      assert ChainAt(g.nodes, up, chains, m);
      ChainEnds(g.nodes, up, chains[m - 1], m);
    }
  }

  lemma DescendTidy(m: nat, g: Shared, th: Thread, reg: Reg, up: Towers, chains: Chains, a: Act)
    requires Alone(m, g, th, reg, up, chains, a) && a.Move? && reg.phase.Descend?
    ensures TidyAfter(m, g, th, reg, up, a, chains)
  {
    hide ListInv, ThreadOk, TowersOk, Noted, Capped, ChainOk, Beside;
    HeadIsLow(g, th);
    var level := reg.phase.level;
    var (b, reg', _) := Effect(m, g, th, reg, up, a);
    var th' := Outcome(g, th, b).0;
    MembersMove(m, g.nodes, up, chains, th.pc, reg.phase, th'.pc, reg'.phase);
    BesideFewer(g.nodes, chains, th.key, reg, reg', level, level);
    if level >= 1 {
      assert ChainAt(g.nodes, up, chains, level);
      ChainNext(g.nodes, up, chains[level - 1], level, th.pc.start);
    }
  }

  // Where the search leaves a level, the node being removed is no longer on it.
  lemma VictimGone(m: nat, g: Shared, th: Thread, reg: Reg, up: Towers, chains: Chains)
    requires MoverOk(m, g, th, reg, up) && Tidy(m, g, th, reg, up, chains) && Capped(g.nodes, up)
    requires reg.phase.Walk? && !At(up, reg.phase.curr, reg.phase.level).marked && Victim(th.pc) != NULL
    requires reg.phase.curr in g.nodes && g.nodes[reg.phase.curr].key >= th.key
    ensures !OnLevel(chains, reg.phase.level, Victim(th.pc))
  {
    hide ListInv, TowersOk, Noted, ChainOk, Base;
    HeadIsLow(g, th);
    var Walk(level, curr) := reg.phase;
    var v := Victim(th.pc);
    assert v in g.nodes && g.nodes[v].marked && g.nodes[v].key == th.key;
    assert AllMarked(up, v, 0);
    if OnLevel(chains, level, v) {
      assert ChainAt(g.nodes, up, chains, level);
      ChainSkips(g.nodes, up, chains[level - 1], level, th.pc.start, v);
      assert false;
    }
  }

  lemma WalkTidy(m: nat, g: Shared, th: Thread, reg: Reg, up: Towers, chains: Chains, a: Act)
    requires Alone(m, g, th, reg, up, chains, a) && a.Move? && reg.phase.Walk?
    ensures TidyAfter(m, g, th, reg, up, a, chains)
  {
    hide ListInv, ThreadOk, TowersOk, Noted, Capped, ChainOk, Beside;
    HeadIsLow(g, th);
    var Walk(level, curr) := reg.phase;
    assert ChainAt(g.nodes, up, chains, level);
    ChainEnds(g.nodes, up, chains[level - 1], level);
    assert Member(g.nodes, up, th.pc, reg.phase, level, curr);
    var link := At(up, curr, level);
    if link.marked {
      MembersMove(m, g.nodes, up, chains, th.pc, reg.phase, th.pc, Cut(level, curr, link.next));
      BesideFewer(g.nodes, chains, th.key, reg, reg.(phase := Cut(level, curr, link.next)), level, level);
    } else if g.nodes[curr].key < th.key {
      ChainNext(g.nodes, up, chains[level - 1], level, curr);
      MembersMove(m, g.nodes, up, chains, th.pc, reg.phase, Route(th.pc.goal, curr), Walk(level, link.next));
      BesideFewer(g.nodes, chains, th.key, reg, reg.(phase := Walk(level, link.next)), level, level);
    } else {
      LevelDone(m, g, th, reg, up, chains, a);
    }
  }

  lemma LevelDone(m: nat, g: Shared, th: Thread, reg: Reg, up: Towers, chains: Chains, a: Act)
    requires Alone(m, g, th, reg, up, chains, a) && a.Move? && reg.phase.Walk?
    requires !At(up, reg.phase.curr, reg.phase.level).marked && g.nodes[reg.phase.curr].key >= th.key
    ensures TidyAfter(m, g, th, reg, up, a, chains)
  {
    hide ListInv, ThreadOk, TowersOk, Noted, Capped, ChainOk;
    HeadIsLow(g, th);
    var Walk(level, curr) := reg.phase;
    var reg' := AfterWalk(g, th, reg, up, level, curr);
    if Victim(th.pc) != NULL { VictimGone(m, g, th, reg, up, chains); }
    assert ChainAt(g.nodes, up, chains, level);
    ChainEnds(g.nodes, up, chains[level - 1], level);
    forall l: nat, p | OnLevel(chains, l, p) ensures Member(g.nodes, up, th.pc, reg'.phase, l, p) {
      assert Member(g.nodes, up, th.pc, reg.phase, l, p);
    }
    forall l: nat | level - 1 < l <= |chains| ensures BesideAt(g.nodes, chains, th.key, reg', l) {
      if l > level { assert BesideAt(g.nodes, chains, th.key, reg, l); }
    }
    if level > 1 { assert chains[level - 1] <= chains[level - 2]; }
  }

  // What is cut is the node being removed, and it is on no higher level.
  lemma CutFacts(m: nat, g: Shared, th: Thread, reg: Reg, up: Towers, chains: Chains)
    requires MoverOk(m, g, th, reg, up) && Tidy(m, g, th, reg, up, chains) && reg.phase.Cut?
    ensures Victim(th.pc) == reg.phase.curr && !Helping(th.pc)
    ensures At(up, th.pc.start, reg.phase.level) == Link(reg.phase.curr, false)
    ensures reg.phase.level < m ==> !OnLevel(chains, reg.phase.level + 1, reg.phase.curr)
  {
    hide ListInv, TowersOk, Noted, ChainOk, Base, Bypassed;
    HeadIsLow(g, th);
    var Cut(level, curr, succ) := reg.phase;
    assert ChainAt(g.nodes, up, chains, level);
    ChainEnds(g.nodes, up, chains[level - 1], level);
    assert Member(g.nodes, up, th.pc, reg.phase, level, curr);
    assert Member(g.nodes, up, th.pc, reg.phase, level, th.pc.start);
    assert OnLevel(chains, level + 1, curr) ==> Member(g.nodes, up, th.pc, reg.phase, level + 1, curr);
  }

  lemma CutChains(m: nat, nodes: Heap, up: Towers, chains: Chains, level: nat, start: Ptr, curr: Ptr, succ: Ptr)
    returns (up': Towers, chains': Chains)
    requires ChainsOk(m, nodes, up, chains) && OnLevel(chains, level, start) && OnLevel(chains, level, curr)
    requires start != TAIL && Has(up, start, level) && At(up, start, level) == Link(curr, false)
    requires Has(up, curr, level) && At(up, curr, level) == Link(succ, true)
    requires level < m ==> !OnLevel(chains, level + 1, curr)
    ensures up' == Put(up, start, level, Link(succ, false))
    ensures chains' == chains[level - 1 := chains[level - 1] - {curr}] && ChainsOk(m, nodes, up', chains')
    ensures OnLevel(chains', level, start) && OnLevel(chains', level, succ)
  {
    hide ChainOk;
    var c, link := chains[level - 1], Link(succ, false);
    up', chains' := Put(up, start, level, link), chains[level - 1 := c - {curr}];
    assert ChainAt(nodes, up, chains, level);
    CutChain(nodes, up, c, level, start, curr, succ);
    assert level < m ==> chains[level] <= c && curr !in chains[level];
    assert level > 1 ==> c <= chains[level - 2];
    OtherChains(m, nodes, up, chains, start, level, link, c - {curr});
  }

  lemma CutTidy(m: nat, g: Shared, th: Thread, reg: Reg, up: Towers, chains: Chains, a: Act) returns (chains': Chains)
    requires Alone(m, g, th, reg, up, chains, a) && a.Move? && reg.phase.Cut?
    ensures TidyAfter(m, g, th, reg, up, a, chains')
  {
    hide ListInv, ThreadOk, TowersOk, Noted, Capped, ChainsOk;
    HeadIsLow(g, th);
    CutFacts(m, g, th, reg, up, chains);
    var Cut(level, curr, succ) := reg.phase;
    var up';
    up', chains' := CutChains(m, g.nodes, up, chains, level, th.pc.start, curr, succ);
    forall l: nat, p | OnLevel(chains', l, p) ensures Member(g.nodes, up', th.pc, Walk(level, succ), l, p) {
      assert OnLevel(chains, l, p) && Member(g.nodes, up, th.pc, reg.phase, l, p);
    }
    forall l: nat | level < l <= |chains'|
      ensures BesideAt(g.nodes, chains', th.key, reg.(phase := Walk(level, succ)), l)
    {
      assert BesideAt(g.nodes, chains, th.key, reg, l);
    }
  }

  // ---------------------------------------------------------------------------
  // Linking and marking
  // ---------------------------------------------------------------------------

  // A step that changes a link of a node off its level changes no chain.
  lemma SameMembers(m: nat, nodes: Heap, up: Towers, up': Towers, chains: Chains, pc: Pc, phase: Phase, phase': Phase)
    requires ChainsOk(m, nodes, up, chains) && ChainsOk(m, nodes, up', chains)
    requires MembersOk(m, nodes, up, pc, phase, chains) && Reach(phase) <= Reach(phase')
    requires forall l: nat, p {:trigger OnLevel(chains, l, p)} :: OnLevel(chains, l, p) && Has(up, p, l) ==>
               Has(up', p, l) && (At(up', p, l).marked ==> At(up, p, l).marked || p == Target(pc))
    ensures MembersOk(m, nodes, up', pc, phase', chains)
  {
    forall l: nat, p | OnLevel(chains, l, p) ensures Member(nodes, up', pc, phase', l, p) {
      assert Member(nodes, up, pc, phase, l, p);
    }
  }

  lemma StoreTidy(m: nat, g: Shared, th: Thread, reg: Reg, up: Towers, chains: Chains, a: Act)
    requires Alone(m, g, th, reg, up, chains, a) && a.Move? && reg.phase.Store?
    ensures TidyAfter(m, g, th, reg, up, a, chains)
  {
    hide ListInv, ThreadOk, TowersOk, Noted, Capped, ChainOk, Beside;
    var level := reg.phase.level;
    var link := Link(reg.succs[level - 1], false);
    var up' := Put(up, reg.node, level, link);
    var reg' := reg.(phase := Join(level));
    assert !OnLevel(chains, level, reg.node);
    assert ChainAt(g.nodes, up, chains, level);
    OffChain(g.nodes, up, chains[level - 1], level, reg.node, link);
    assert chains[level - 1 := chains[level - 1]] == chains;
    assert level < m ==> chains[level] <= chains[level - 1];
    assert level > 1 ==> chains[level - 1] <= chains[level - 2];
    OtherChains(m, g.nodes, up, chains, reg.node, level, link, chains[level - 1]);
    SameMembers(m, g.nodes, up, up', chains, th.pc, reg.phase, reg'.phase);
    BesideFewer(g.nodes, chains, th.key, reg, reg', 0, 0);
  }

  // The new node belongs between the neighbours found: no other live node has its key.
  lemma JoinFacts(m: nat, g: Shared, th: Thread, reg: Reg, up: Towers, chains: Chains)
    requires MoverOk(m, g, th, reg, up) && Tidy(m, g, th, reg, up, chains) && reg.phase.Join?
    ensures var level := reg.phase.level;
            && BesideAt(g.nodes, chains, th.key, reg, level) && reg.node in g.nodes && g.nodes[reg.node].key == th.key
            && !OnLevel(chains, level, reg.node) && (level > 1 ==> OnLevel(chains, level - 1, reg.node))
            && th.key < g.nodes[reg.succs[level - 1]].key && NEG_INF < th.key < POS_INF && reg.node != NULL
  {
    hide TowersOk, Noted, Retired, CellsOk, ChainOk;
    var level := reg.phase.level;
    var n, succ := reg.node, reg.succs[level - 1];
    assert BesideAt(g.nodes, chains, th.key, reg, level);
    assert !OnLevel(chains, level, n);
    assert level > 1 ==> OnLevel(chains, level - 1, n);
    assert Member(g.nodes, up, th.pc, reg.phase, level, succ);
    assert ChainAt(g.nodes, up, chains, level);
    ChainEnds(g.nodes, up, chains[level - 1], level);
    assert !g.nodes[succ].marked ==> Ordered(g.nodes, succ, n);
  }

  lemma JoinChains(m: nat, nodes: Heap, up: Towers, chains: Chains, level: nat, pred: Ptr, succ: Ptr, n: Ptr)
    returns (up': Towers, chains': Chains)
    requires ChainsOk(m, nodes, up, chains) && OnLevel(chains, level, pred) && OnLevel(chains, level, succ)
    requires !OnLevel(chains, level, n) && (level > 1 ==> OnLevel(chains, level - 1, n)) && n in nodes && n != NULL
    requires Has(up, pred, level) && At(up, pred, level) == Link(succ, false)
    requires Has(up, n, level) && At(up, n, level) == Link(succ, false)
    requires pred in nodes && succ in nodes && nodes[pred].key < nodes[n].key < nodes[succ].key
    requires NEG_INF < nodes[n].key < POS_INF
    ensures up' == Put(up, pred, level, Link(n, false))
    ensures chains' == chains[level - 1 := chains[level - 1] + {n}] && ChainsOk(m, nodes, up', chains')
  {
    hide ChainOk;
    var c, link := chains[level - 1], Link(n, false);
    up', chains' := Put(up, pred, level, link), chains[level - 1 := c + {n}];
    assert ChainAt(nodes, up, chains, level);
    JoinChain(nodes, up, c, level, pred, succ, n);
    assert level < m ==> chains[level] <= c;
    assert level > 1 ==> c <= chains[level - 2];
    OtherChains(m, nodes, up, chains, pred, level, link, c + {n});
  }

  lemma JoinTidy(m: nat, g: Shared, th: Thread, reg: Reg, up: Towers, chains: Chains, a: Act) returns (chains': Chains)
    requires Alone(m, g, th, reg, up, chains, a) && a.Move? && reg.phase.Join?
    ensures TidyAfter(m, g, th, reg, up, a, chains')
  {
    hide ListInv, ThreadOk, TowersOk, Noted, Capped, ChainsOk;
    JoinFacts(m, g, th, reg, up, chains);
    var level := reg.phase.level;
    var pred, succ := reg.preds[level - 1], reg.succs[level - 1];
    if At(up, pred, level) == Link(succ, false) {
      var up';
      up', chains' := JoinChains(m, g.nodes, up, chains, level, pred, succ, reg.node);
      JoinWon(m, g, th, reg, up, chains, a, up', chains');
    } else {
      chains' := chains;
      JoinLost(m, g, th, reg, up, chains, a);
    }
  }

  lemma JoinLost(m: nat, g: Shared, th: Thread, reg: Reg, up: Towers, chains: Chains, a: Act)
    requires Alone(m, g, th, reg, up, chains, a) && a.Move? && reg.phase.Join?
    requires At(up, reg.preds[reg.phase.level - 1], reg.phase.level) != Link(reg.succs[reg.phase.level - 1], false)
    ensures TidyAfter(m, g, th, reg, up, a, chains)
  {
    hide ListInv, ThreadOk, TowersOk, Noted, Capped, ChainOk;
    MembersMove(m, g.nodes, up, chains, th.pc, reg.phase, Route(Help, HEAD), Descend(m));
    BesideFewer(g.nodes, chains, th.key, reg, reg.(phase := Descend(m)), 0, m);
    assert ChainAt(g.nodes, up, chains, m);
    ChainEnds(g.nodes, up, chains[m - 1], m);
  }

  lemma JoinWon(m: nat, g: Shared, th: Thread, reg: Reg, up: Towers, chains: Chains, a: Act,
                up': Towers, chains': Chains)
    requires Alone(m, g, th, reg, up, chains, a) && a.Move? && reg.phase.Join?
    requires var level := reg.phase.level;
             && At(up, reg.preds[level - 1], level) == Link(reg.succs[level - 1], false)
             && up' == Put(up, reg.preds[level - 1], level, Link(reg.node, false))
             && 1 <= level <= |chains| && chains' == chains[level - 1 := chains[level - 1] + {reg.node}]
    requires ChainsOk(m, g.nodes, up', chains')
    ensures TidyAfter(m, g, th, reg, up, a, chains')
  {
    hide ListInv, ThreadOk, TowersOk, Noted, Capped, ChainsOk;
    var level := reg.phase.level;
    var reg' := reg.(rung := level + 1, phase := if level < reg.top then Store(level + 1) else Below);
    forall l: nat, p | OnLevel(chains', l, p) ensures Member(g.nodes, up', th.pc, reg'.phase, l, p) {
      assert OnLevel(chains, l, p) || (l == level && p == reg.node);
      assert OnLevel(chains, l, p) ==> Member(g.nodes, up, th.pc, reg.phase, l, p);
    }
    forall l: nat | 0 < l <= |chains'| ensures BesideAt(g.nodes, chains', th.key, reg', l) {
      assert BesideAt(g.nodes, chains, th.key, reg, l);
    }
    forall l: nat | 1 <= l <= |chains'| ensures OnLevel(chains', l, reg.node) <==> l < level + 1 {
      assert OnLevel(chains, l, reg.node) <==> l < level;
    }
  }

  lemma LevelBound(m: nat, nodes: Heap, up: Towers, p: Ptr, l: nat)
    requires TowersOk(m, nodes, up) && Has(up, p, l)
    ensures l <= m
  {
  }

  lemma LookTidy(m: nat, g: Shared, th: Thread, reg: Reg, up: Towers, chains: Chains, a: Act)
    requires Alone(m, g, th, reg, up, chains, a) && a.Move? && (reg.phase.Look? || reg.phase.Flag?)
    ensures TidyAfter(m, g, th, reg, up, a, chains)
  {
    hide ListInv, ThreadOk, TowersOk, Noted, Capped, ChainOk, Beside;
    LoadSuccNode(g, th);
    NoNull(g);
    var (_, reg', up') := Effect(m, g, th, reg, up, a);
    var level, n := reg.phase.level, th.pc.node;
    if reg.phase.Flag? && At(up, n, level) == Link(reg.phase.succ, false) {
      LevelBound(m, g.nodes, up, n, level);
      assert ChainAt(g.nodes, up, chains, level);
      FlagChain(g.nodes, up, chains[level - 1], level, n, reg.phase.succ);
      assert chains[level - 1 := chains[level - 1]] == chains;
      assert level < m ==> chains[level] <= chains[level - 1];
      assert level > 1 ==> chains[level - 1] <= chains[level - 2];
      OtherChains(m, g.nodes, up, chains, n, level, Link(reg.phase.succ, true), chains[level - 1]);
    }
    SameMembers(m, g.nodes, up, up', chains, th.pc, reg.phase, reg'.phase);
    BesideFewer(g.nodes, chains, th.key, reg, reg', 0, 0);
  }

  // ---------------------------------------------------------------------------
  // The steps on level 0
  // ---------------------------------------------------------------------------

  // What a step on level 0 does, seen from above.
  ghost predicate Under(g: Shared, th: Thread, n: Ptr)
    requires Enabled(g, th, Go(n))
  {
    var (th', g') := Outcome(g, th, Go(n));
    && th'.key == th.key && Active(th)
    && (forall p :: p in g.nodes ==> p in g'.nodes && g'.nodes[p].key == g.nodes[p].key)
    && (forall p :: p in g.nodes && g'.nodes[p].marked && !g.nodes[p].marked ==> p == Victim(th'.pc) && th'.pc.Route?)
    && FoundTidy(g'.nodes, th'.pc)
    && (Target(th'.pc) == Target(th.pc) || Target(th.pc) == NULL || th.pc.Retire?)
    && (Victim(th.pc) != NULL ==> Victim(th'.pc) == Victim(th.pc) || th.pc.Retire?)
    && (th'.pc.Route? ==> th'.pc.start == HEAD)
    && (Helping(th'.pc) ==> Helping(th.pc))
    && (th'.pc.CountAdd? ==> Helping(th.pc) || (th.pc.Publish? && CasOk(g.nodes, th.pc.pred, th.pc.succ)))
    && (th.pc.Publish? && CasOk(g.nodes, th.pc.pred, th.pc.succ) ==>
          th'.pc.CountAdd? && n !in g.nodes && n in g'.nodes && g'.nodes[n].key == th.key && !g'.nodes[n].marked)
  }

  lemma UnderLoad(g: Shared, th: Thread, n: Ptr)
    requires Enabled(g, th, Go(n)) && th.pc.Load?
    ensures Under(g, th, n)
  {
    hide CasOk, Counted;
  }

  lemma UnderCas(g: Shared, th: Thread, n: Ptr)
    requires Enabled(g, th, Go(n)) && (th.pc.Splice? || th.pc.Publish? || th.pc.Mark?)
    requires FoundTidy(g.nodes, th.pc) && NULL !in g.nodes
    ensures Under(g, th, n)
  {
    hide AfterLoad, Counted;
  }

  lemma UnderOther(g: Shared, th: Thread, n: Ptr)
    requires Enabled(g, th, Go(n)) && !th.pc.Load? && !th.pc.Splice? && !th.pc.Publish? && !th.pc.Mark?
    requires FoundTidy(g.nodes, th.pc)
    ensures Under(g, th, n)
  {
    hide AfterLoad, CasOk, Counted;
  }

  lemma UnderStep(g: Shared, th: Thread, n: Ptr)
    requires Enabled(g, th, Go(n)) && FoundTidy(g.nodes, th.pc) && NULL !in g.nodes
    ensures Under(g, th, n)
  {
    hide Under, FoundTidy;
    if th.pc.Load? { UnderLoad(g, th, n); }
    else if th.pc.Splice? || th.pc.Publish? || th.pc.Mark? { UnderCas(g, th, n); }
    else { UnderOther(g, th, n); }
  }

  lemma ChainsUnder(m: nat, nodes: Heap, up: Towers, nodes': Heap, up': Towers, chains: Chains)
    requires ChainsOk(m, nodes, up, chains)
    requires forall p :: p in nodes ==> p in nodes' && nodes'[p].key == nodes[p].key
    requires forall p :: p in nodes && p in up ==> p in up' && up'[p] == up[p]
    ensures ChainsOk(m, nodes', up', chains)
  {
    forall l: nat | 1 <= l <= m ensures ChainAt(nodes', up', chains, l) {
      assert ChainAt(nodes, up, chains, l);
      SameChain(nodes, up, nodes', up', chains[l - 1], l);
    }
  }

  lemma VictimIsMarked(g: Shared, th: Thread)
    requires ThreadOk(g, th) && th.pc.Retire?
    ensures th.pc.node in g.nodes && g.nodes[th.pc.node].marked
  {
  }

  lemma MembersUnder(m: nat, g: Shared, th: Thread, reg: Reg, up: Towers, chains: Chains, n: Ptr,
                     up': Towers, phase': Phase)
    requires Enabled(g, th, Go(n)) && Under(g, th, n) && ThreadOk(g, th) && NULL !in g.nodes && reg.phase.Below?
    requires ChainsOk(m, g.nodes, up, chains) && MembersOk(m, g.nodes, up, th.pc, reg.phase, chains)
    requires ChainsOk(m, Outcome(g, th, Go(n)).1.nodes, up', chains)
    requires forall p :: p in g.nodes && p in up ==> p in up' && up'[p] == up[p]
    requires Outcome(g, th, Go(n)).0.pc.Route? ==> phase' == Descend(m)
    ensures MembersOk(m, Outcome(g, th, Go(n)).1.nodes, up', Outcome(g, th, Go(n)).0.pc, phase', chains)
  {
    hide Outcome, ThreadOk, ChainAt;
    var (th', g') := Outcome(g, th, Go(n));
    if th.pc.Retire? { VictimIsMarked(g, th); }
    forall l: nat, p | OnLevel(chains, l, p) ensures Member(g'.nodes, up', th'.pc, phase', l, p) {
      assert Member(g.nodes, up, th.pc, reg.phase, l, p);
    }
  }

  lemma BesideUnder(nodes: Heap, nodes': Heap, chains: Chains, key: real, reg: Reg, reg': Reg, level: nat)
    requires Beside(nodes, chains, key, reg, 0) && reg'.preds == reg.preds && reg'.succs == reg.succs
    requires forall p :: p in nodes ==> p in nodes' && nodes'[p].key == nodes[p].key
    ensures Beside(nodes', chains, key, reg', level)
  {
    forall l: nat | level < l <= |chains| ensures BesideAt(nodes', chains, key, reg', l) {
      assert BesideAt(nodes, chains, key, reg, l);
    }
  }

  // Nothing on a level is new to the list.
  lemma NotOnLevels(m: nat, nodes: Heap, up: Towers, chains: Chains, n: Ptr)
    requires ChainsOk(m, nodes, up, chains) && n !in nodes
    ensures forall l: nat {:trigger OnLevel(chains, l, n)} :: !OnLevel(chains, l, n)
  {
    forall l: nat ensures !OnLevel(chains, l, n) {
      assert 1 <= l <= m ==> ChainAt(nodes, up, chains, l);
    }
  }

  lemma BelowTidy(m: nat, g: Shared, th: Thread, reg: Reg, up: Towers, chains: Chains, a: Act)
    requires Alone(m, g, th, reg, up, chains, a) && a.Move? && reg.phase.Below?
    ensures TidyAfter(m, g, th, reg, up, a, chains)
  {
    hide ListInv, ThreadOk, Noted, Capped, ChainsOk, Outcome, Enabled, Beside, FoundTidy, CasOk;
    NoNull(g);
    UnderStep(g, th, a.memory);
    var (_, reg', up') := Effect(m, g, th, reg, up, a);
    var (th', g') := Outcome(g, th, Go(a.memory));
    ChainsUnder(m, g.nodes, up, g'.nodes, up', chains);
    MembersUnder(m, g, th, reg, up, chains, a.memory, up', reg'.phase);
    BesideUnder(g.nodes, g'.nodes, chains, th.key, reg, reg', Reach(reg'.phase));
    if th.pc.Publish? && CasOk(g.nodes, th.pc.pred, th.pc.succ) { NotOnLevels(m, g.nodes, up, chains, a.memory); }
    if m >= 1 { HeadOnTop(m, g'.nodes, up', chains); }
    ChainCount(m, g'.nodes, up', chains);
  }

  lemma HeadOnTop(m: nat, nodes: Heap, up: Towers, chains: Chains)
    requires ChainsOk(m, nodes, up, chains) && m >= 1
    ensures OnLevel(chains, m, HEAD)
  {
    assert ChainAt(nodes, up, chains, m);
    ChainEnds(nodes, up, chains[m - 1], m);
  }

  lemma ChainCount(m: nat, nodes: Heap, up: Towers, chains: Chains)
    requires ChainsOk(m, nodes, up, chains)
    ensures |chains| == m
  {
  }

  // ---------------------------------------------------------------------------
  // Every run of one thread
  // ---------------------------------------------------------------------------

  lemma MoverTidy(m: nat, g: Shared, th: Thread, reg: Reg, up: Towers, chains: Chains, a: Act) returns (chains': Chains)
    requires Alone(m, g, th, reg, up, chains, a)
    ensures TidyAfter(m, g, th, reg, up, a, chains')
  {
    hide Alone, TidyAfter, Ready;
    chains' := chains;
    if a.Start? { StartTidy(m, g, th, reg, up, chains, a); }
    else if reg.phase.Below? { BelowTidy(m, g, th, reg, up, chains, a); }
    else if reg.phase.Descend? { DescendTidy(m, g, th, reg, up, chains, a); }
    else if reg.phase.Walk? { WalkTidy(m, g, th, reg, up, chains, a); }
    else if reg.phase.Cut? { chains' := CutTidy(m, g, th, reg, up, chains, a); }
    else if reg.phase.Store? { StoreTidy(m, g, th, reg, up, chains, a); }
    else if reg.phase.Join? { chains' := JoinTidy(m, g, th, reg, up, chains, a); }
    else { LookTidy(m, g, th, reg, up, chains, a); }
  }

  ghost predicate TidyState(m: nat, s: Tower.State, t: Tid, chains: Chains) {
    t in s.base.threads && t in s.regs && Tidy(m, s.base.g, s.base.threads[t], s.regs[t], s.up, chains)
  }

  // Only what is shared, the key and the program counter matter.
  lemma SameTidy(m: nat, g: Shared, th: Thread, g': Shared, th': Thread, reg: Reg, up: Towers, chains: Chains)
    requires Tidy(m, g, th, reg, up, chains) && g'.nodes == g.nodes && th'.pc == th.pc && th'.key == th.key
    ensures Tidy(m, g', th', reg, up, chains)
  {
    hide ChainsOk, MembersOk, Beside, OwnTidy;
  }

  lemma TidyStep(m: nat, s: Tower.State, t: Tid, a: Act, s': Tower.State, chains: Chains) returns (chains': Chains)
    requires Inv(s.base) && UpInv(m, s) && CleanInv(s) && Solo(s, t) && Tower.Next(m, s, t, a, s')
    requires TidyState(m, s, t, chains)
    ensures TidyState(m, s', t, chains')
  {
    hide ListInv, ThreadOk, TowersOk, RegOk, Outcome, Enabled, Ready, Effect;
    hide Capped, CleanThread, SoloOk, Tidy, Observe;
    var g, th, reg, up := s.base.g, s.base.threads[t], s.regs[t], s.up;
    assert ThreadUp(m, s, t);
    assert MoverOk(m, g, th, reg, up);
    MoverUp(m, g, th, reg, up, a);
    chains' := MoverTidy(m, g, th, reg, up, chains, a);
    var (b, reg', up') := Effect(m, g, th, reg, up, a);
    var (th', g') := Outcome(g, th, b);
    ThreadsAfter(s.base, t, b, s'.base);
    Looking(th', g'.nodes, g'.linked);
    SameTidy(m, g', th', s'.base.g, s'.base.threads[t], reg', up', chains');
  }

  lemma Looking(th: Thread, nodes: Heap, linked: set<Ptr>)
    ensures Observe(th, nodes, linked).pc == th.pc && Observe(th, nodes, linked).key == th.key
  {
  }

  lemma TidyStart(m: nat, s: Tower.State, t: Tid) returns (chains: Chains)
    requires Tower.Init(m, s) && t in s.base.threads
    ensures TidyState(m, s, t, chains)
  {
    var c := {HEAD, TAIL};
    chains := seq(m, _ => c);
    forall l: nat | 1 <= l <= m ensures ChainAt(s.base.g.nodes, s.up, chains, l) {
      FirstChain(s.base.g.nodes, s.up, l);
    }
  }

  lemma FirstChain(nodes: Heap, up: Towers, l: nat)
    requires HEAD in nodes && TAIL in nodes && nodes[HEAD].key == NEG_INF && nodes[TAIL].key == POS_INF
    requires Has(up, HEAD, l) && At(up, HEAD, l) == Link(TAIL, false)
    requires Has(up, TAIL, l) && At(up, TAIL, l) == Link(NULL, false)
    ensures ChainOk(nodes, up, {HEAD, TAIL}, l)
  {
    var c := {HEAD, TAIL};
    var h := Level(nodes, up, c, l);
    assert Up(h, HEAD) && Stays(h, c, HEAD);
    forall p, q | p in c && q in c ensures Ordered(h, p, q) {}
  }

  lemma {:induction false} AlwaysTidy(m: nat, run: seq<Tower.State>, i: nat, t: Tid) returns (chains: Chains)
    requires Tower.Behavior(m, run) && i < |run| && run[0].base.threads.Keys == {t}
    ensures TidyState(m, run[i], t, chains)
  {
    hide UpInv, Inv, CleanInv, Solo, TidyState, Ready, Effect;
    if i == 0 {
      chains := TidyStart(m, run[0], t);
    } else {
      chains := AlwaysTidy(m, run, i - 1, t);
      BaseInv(m, run, i - 1);
      AlwaysUp(m, run, i - 1);
      AlwaysSolo(m, run, i - 1, t);
      FlatOrAloneIsClean(m, run);
      AlwaysClean(m, run, i - 1);
      assert Tower.StepAt(m, run, i - 1);
      var u, a :| Tower.Next(m, run[i - 1], u, a, run[i]);
      chains := TidyStep(m, run[i - 1], t, a, run[i], chains);
    }
  }
}
