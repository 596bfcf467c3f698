/** An operation on the skiplist that is left alone returns, if no dead node is linked
  * on an upper level below its key: a bound on its steps, and the runs in which that
  * holds.
  */
module TowerProgress {
  import opened BottomList
  import opened Tower
  import opened TowerRank

  // ---------------------------------------------------------------------------
  // Positions
  // ---------------------------------------------------------------------------

  function Linked(ranks: Ranks, l: nat): set<Ptr> {
    (if 1 <= l <= |ranks| then ranks[l - 1].Keys else {}) + {TAIL}
  }

  // What lies ahead of `p` on level `l`, and how much it is.
  function Onward(nodes: Heap, ranks: Ranks, l: nat, p: Ptr): set<Ptr> {
    set x | x in Linked(ranks, l) && (x == p || Before(nodes, ranks, l, p, x))
  }

  function Pos(nodes: Heap, ranks: Ranks, l: nat, p: Ptr): nat { |Onward(nodes, ranks, l, p)| }

  lemma PosDrops(nodes: Heap, ranks: Ranks, l: nat, p: Ptr, q: Ptr)
    requires In(ranks, l, p) && Before(nodes, ranks, l, p, q)
    ensures Pos(nodes, ranks, l, q) < Pos(nodes, ranks, l, p)
  {
    var a, b := Onward(nodes, ranks, l, p), Onward(nodes, ranks, l, q);
    forall x | x in b ensures x in a { if x != q { BeforeOn(nodes, ranks, l, p, q, x); } }
    assert p in a && p !in b;
    Smaller(b, a, p);
  }

  lemma Smaller<T>(b: set<T>, a: set<T>, p: T)
    requires b <= a && p in a && p !in b
    ensures |b| < |a|
  {
    assert b <= a - {p};
    Included(b, a - {p});
  }

  lemma {:induction false} Included<T>(b: set<T>, a: set<T>)
    requires b <= a
    ensures |b| <= |a|
    decreases b
  {
    if b != {} {
      var x :| x in b;
      Included(b - {x}, a - {x});
    }
  }

  lemma PosBound(m: nat, nodes: Heap, up: Towers, ranks: Ranks, l: nat, p: Ptr)
    requires RanksOk(m, nodes, up, ranks) && TAIL in nodes
    ensures Pos(nodes, ranks, l, p) <= |nodes|
  {
    forall x | x in Onward(nodes, ranks, l, p) ensures x in nodes.Keys {
      if x != TAIL { assert MemberOk(nodes, up, ranks, l, x); }
    }
    Included(Onward(nodes, ranks, l, p), nodes.Keys);
  }

  // A walk along level `l`.
  ghost predicate Path(up: Towers, l: nat, w: seq<Ptr>) {
    |w| > 0 && forall k :: 0 <= k < |w| - 1 ==> Has(up, w[k], l) && At(up, w[k], l).next == w[k + 1]
  }

  lemma {:induction false} ToTail(m: nat, nodes: Heap, up: Towers, ranks: Ranks, l: nat, p: Ptr) returns (w: seq<Ptr>)
    requires RanksOk(m, nodes, up, ranks) && Known(ranks, l, p)
    ensures Path(up, l, w) && w[0] == p && w[|w| - 1] == TAIL
    decreases Pos(nodes, ranks, l, p)
  {
    hide RanksOk, Before, Pos;
    if p == TAIL {
      w := [TAIL];
    } else {
      LinksHere(m, nodes, up, ranks, l, p);
      PosDrops(nodes, ranks, l, p, At(up, p, l).next);
      w := ToTail(m, nodes, up, ranks, l, At(up, p, l).next);
      w := [p] + w;
    }
  }

  // In every run, from whatever node, dead or alive, every level leads to tail.
  lemma LevelsEnd(m: nat, run: seq<Tower.State>, i: nat, l: nat, p: Ptr) returns (w: seq<Ptr>)
    requires Tower.Behavior(m, run) && i < |run| && Has(run[i].up, p, l)
    ensures Path(run[i].up, l, w) && w[0] == p && w[|w| - 1] == TAIL
  {
    hide Tower.Behavior, RanksOk, ThreadRank, Before;
    var ranks := AlwaysRanked(m, run, i);
    var nodes, up := run[i].base.g.nodes, run[i].up;
    LinksHere(m, nodes, up, ranks, l, p);
    if p == TAIL {
      w := [TAIL];
    } else {
      w := ToTail(m, nodes, up, ranks, l, At(up, p, l).next);
      w := [p] + w;
    }
  }

  // The same on level 0, by keys.
  function Larger(nodes: Heap, p: Ptr): set<Ptr> {
    set x | x in nodes && p in nodes && nodes[p].key <= nodes[x].key
  }

  function Ahead(nodes: Heap, p: Ptr): nat { |Larger(nodes, p)| }

  lemma AheadDrops(nodes: Heap, p: Ptr, q: Ptr)
    requires p in nodes && q in nodes && nodes[p].key < nodes[q].key
    ensures Ahead(nodes, q) < Ahead(nodes, p)
  {
    assert p in Larger(nodes, p) && p !in Larger(nodes, q);
    Smaller(Larger(nodes, q), Larger(nodes, p), p);
  }

  lemma AheadBound(nodes: Heap, p: Ptr)
    ensures Ahead(nodes, p) <= |nodes|
  {
    Included(Larger(nodes, p), nodes.Keys);
  }

  lemma AheadStays(nodes: Heap, nodes': Heap, p: Ptr)
    requires KeysStay(nodes, nodes') && nodes'.Keys == nodes.Keys
    ensures Ahead(nodes', p) == Ahead(nodes, p) && |nodes'| == |nodes|
  {
    assert Larger(nodes', p) == Larger(nodes, p);
    assert |nodes'| == |nodes'.Keys| && |nodes| == |nodes.Keys|;
  }

  // ---------------------------------------------------------------------------
  // When a search will not have to start again
  // ---------------------------------------------------------------------------

  // What was noted on level `l` is still so.
  predicate Fresh(up: Towers, reg: Reg, l: nat) {
    && 1 <= l <= |reg.preds| && l <= |reg.succs| && Has(up, reg.preds[l - 1], l)
    && At(up, reg.preds[l - 1], l) == Link(reg.succs[l - 1], false)
  }

  ghost predicate FreshAbove(m: nat, up: Towers, reg: Reg, level: nat) {
    forall l: nat {:trigger Fresh(up, reg, l)} :: level < l <= m ==> Fresh(up, reg, l)
  }

  // Nothing has come between since the thread's registers were read.
  ghost predicate Firm(m: nat, nodes: Heap, up: Towers, pc: Pc, reg: Reg) {
    match reg.phase
    case Descend(l) =>
      && FreshAbove(m, up, reg, l) && pc.Route?
      && if l == 0 then pc.start in nodes && !nodes[pc.start].marked
         else Has(up, pc.start, l) && !At(up, pc.start, l).marked
    case Walk(l, curr) =>
      FreshAbove(m, up, reg, l) && pc.Route? && Has(up, pc.start, l) && At(up, pc.start, l) == Link(curr, false)
    case Cut(l, curr, _) =>
      FreshAbove(m, up, reg, l) && pc.Route? && Has(up, pc.start, l) && At(up, pc.start, l) == Link(curr, false)
    case Store(l) => l >= 1 && FreshAbove(m, up, reg, l - 1)
    case Join(l) => l >= 1 && FreshAbove(m, up, reg, l - 1)
    case Look(l) => pc.LoadSucc? && Has(up, pc.node, l) && At(up, pc.node, l).marked
    case Flag(l, succ) => pc.LoadSucc? && Has(up, pc.node, l) && At(up, pc.node, l) == Link(succ, false)
    case Below =>
      match pc
      case Load(_, pred, curr) => FreshAbove(m, up, reg, 0) && CasOk(nodes, pred, curr)
      case Splice(_, pred, curr, _) => FreshAbove(m, up, reg, 0) && CasOk(nodes, pred, curr)
      case Publish(pred, succ) => FreshAbove(m, up, reg, 0) && CasOk(nodes, pred, succ)
      case Mark(node, succ) => CasOk(nodes, node, succ)
      case _ => true
  }

  // ---------------------------------------------------------------------------
  // How far an operation is from its end
  // ---------------------------------------------------------------------------

  // The steps of a search on one level, and on `l` of them.
  function Lap(nodes: Heap): nat { 2 * |nodes| + 8 }

  function Laps(l: nat, lap: nat): nat { if l == 0 then 0 else Laps(l - 1, lap) + lap }

  function Span(m: nat, nodes: Heap): nat { Laps(m + 1, Lap(nodes)) }

  lemma {:induction false} LapsRise(l: nat, m: nat, lap: nat)
    requires l <= m
    ensures Laps(l, lap) <= Laps(m, lap)
    decreases m
  {
    if l < m { LapsRise(l, m - 1, lap); }
  }

  lemma {:induction false} LapsAtLeast(l: nat, lap: nat, c: nat)
    requires c <= lap
    ensures Laps(l, c) <= Laps(l, lap)
  {
    if l > 0 { LapsAtLeast(l - 1, lap, c); }
  }

  lemma {:induction false} LapsGrow(l: nat, lap: nat)
    ensures Laps(l, lap + 2) == Laps(l, lap) + 2 * l
  {
    if l > 0 { LapsGrow(l - 1, lap); }
  }

  lemma {:induction false} TwelveLaps(l: nat)
    ensures Laps(l, 12) == 12 * l
  {
    if l > 0 { TwelveLaps(l - 1); }
  }

  lemma SpanIs(m: nat, nodes: Heap, l: nat)
    requires |nodes| >= 2 && l <= m
    ensures Span(m, nodes) >= 12 * m + 12 && Laps(l, Lap(nodes)) + Lap(nodes) <= Span(m, nodes)
    ensures Laps(m, Lap(nodes)) + Lap(nodes) == Span(m, nodes)
    ensures l >= 1 ==> Laps(l, Lap(nodes)) == Laps(l - 1, Lap(nodes)) + Lap(nodes)
  {
    LapsAtLeast(m + 1, Lap(nodes), 12);
    TwelveLaps(m + 1);
    LapsRise(l, m, Lap(nodes));
  }

  // A search of this kind, and what may come after it.
  function Turns(goal: Goal, firm: bool, span: nat): nat {
    match goal
    case Get => span
    case Insert => if firm then span else 4 * span
    case Remove => if firm then 3 * span else 4 * span
    case Unlink(_) => if firm then span else 2 * span
    case Help => if firm then span else 3 * span
  }

  function Below0(m: nat, nodes: Heap, pc: Pc, firm: bool): nat {
    var span := Span(m, nodes);
    match pc
    case Load(goal, _, curr) => Turns(goal, firm, span) + 2 * Ahead(nodes, curr) + 2
    case Splice(goal, _, curr, _) => Turns(goal, firm, span) + 2 * Ahead(nodes, curr) + 1
    case Publish(_, _) => if firm then 2 * m + 6 else 3 * span
    case LoadSucc(_) => 2 * span + 3
    case Mark(_, _) => if firm then 2 * span else 2 * span + 2
    case Recheck(_) => 2 * span + 1
    case ReadMark(_) => 2
    case CountSub(_) => 2
    case Idle => 0
    case Returned(_, _) => 0
    case _ => 1
  }

  function GoalOf(pc: Pc): Goal { if pc.Route? then pc.goal else Get }

  ghost function Weight(m: nat, nodes: Heap, up: Towers, ranks: Ranks, pc: Pc, reg: Reg): int {
    var span, lap, firm := Span(m, nodes), Lap(nodes), Firm(m, nodes, up, pc, reg);
    match reg.phase
    case Descend(l) => Turns(GoalOf(pc), firm, span) + Laps(l, lap) + lap - 1
    case Walk(l, curr) => Turns(GoalOf(pc), firm, span) + Laps(l, lap) + 2 * Pos(nodes, ranks, l, curr) + 1
    case Cut(l, curr, _) => Turns(GoalOf(pc), firm, span) + Laps(l, lap) + 2 * Pos(nodes, ranks, l, curr)
    case Store(l) => (if firm then 0 else 2 * span) + 2 * (reg.top - l) + 4
    case Join(l) => (if firm then 0 else 2 * span) + 2 * (reg.top - l) + 3
    case Look(l) => 2 * span + 4 + 4 * l + (if firm then 1 else 3)
    case Flag(l, _) => 2 * span + 4 + 4 * l + (if firm then 2 else 4)
    case Below => Below0(m, nodes, pc, firm)
  }

  // ---------------------------------------------------------------------------
  // Every step of the thread gets it nearer to its end
  // ---------------------------------------------------------------------------

  // Where a node below `key` is not marked on a level it is not marked on the next lower one.
  ghost predicate Staged(nodes: Heap, up: Towers, key: real) {
    forall p, l: nat {:trigger StagedAt(nodes, up, p, l)} ::
      p in nodes && nodes[p].key < key ==> StagedAt(nodes, up, p, l)
  }

  ghost predicate StagedAt(nodes: Heap, up: Towers, p: Ptr, l: nat) {
    Has(up, p, l) && p in nodes && !At(up, p, l).marked ==>
      if l == 1 then !nodes[p].marked else Has(up, p, l - 1) && !At(up, p, l - 1).marked
  }

  ghost predicate Alone(m: nat, g: Shared, th: Thread, reg: Reg, up: Towers, a: Act, ranks: Ranks) {
    && MoverOk(m, g, th, reg, up) && Ready(m, g, th, reg, up, a) && StepUp(m, g, th, reg, up, a)
    && RanksOk(m, g.nodes, up, ranks) && ThreadRank(m, g.nodes, ranks, th.key, th.pc, reg)
    && Staged(g.nodes, up, th.key) && Active(th) && a.Move?
  }

  ghost predicate Nearer(m: nat, g: Shared, th: Thread, reg: Reg, up: Towers, a: Act, ranks: Ranks)
    requires Ready(m, g, th, reg, up, a)
  {
    var (b, reg', up') := Effect(m, g, th, reg, up, a);
    && Enabled(g, th, b)
    && var (th', g') := Outcome(g, th, b);
    0 <= Weight(m, g'.nodes, up', RanksAfter(g, th, reg, up, a, ranks), th'.pc, reg')
      < Weight(m, g.nodes, up, ranks, th.pc, reg)
  }

  lemma TwoNodes(g: Shared)
    requires ListInv(g)
    ensures |g.nodes| >= 2 && HEAD in g.nodes && TAIL in g.nodes && !g.nodes[HEAD].marked
  {
    Included({HEAD, TAIL}, g.nodes.Keys);
  }

  lemma TurnsStay(goal: Goal, firm: bool, firm': bool, span: nat)
    requires goal.Get? || (firm ==> firm')
    ensures Turns(goal, firm', span) <= Turns(goal, firm, span)
  {
  }

  // A search that has to start again has a turn to spare.
  lemma TurnLeft(goal: Goal, span: nat)
    requires !goal.Get?
    ensures Turns(goal, true, span) + span <= Turns(goal, false, span)
  {
  }

  lemma DescendNearer(m: nat, g: Shared, th: Thread, reg: Reg, up: Towers, a: Act, ranks: Ranks)
    requires Alone(m, g, th, reg, up, a, ranks) && reg.phase.Descend?
    ensures Nearer(m, g, th, reg, up, a, ranks)
  {
    hide ListInv, ThreadOk, TowersOk, RanksOk, ThreadRank, Staged, Noted, OwnOk, FreshAbove, Pos, Ahead, Laps, Span;
    TwoNodes(g);
    var l, reg' := reg.phase.level, Effect(m, g, th, reg, up, a).1;
    SpanIs(m, g.nodes, l);
    SameFresh(m, up, reg, reg', l);
    if l == 0 {
      AheadBound(g.nodes, g.nodes[th.pc.start].next);
    } else {
      PosBound(m, g.nodes, up, ranks, l, At(up, th.pc.start, l).next);
    }
  }

  lemma SameFresh(m: nat, up: Towers, reg: Reg, reg': Reg, level: nat)
    requires reg'.preds == reg.preds && reg'.succs == reg.succs
    ensures FreshAbove(m, up, reg', level) <==> FreshAbove(m, up, reg, level)
  {
    if FreshAbove(m, up, reg, level) {
      forall l: nat | level < l <= m ensures Fresh(up, reg', l) { assert Fresh(up, reg, l); }
    }
    if FreshAbove(m, up, reg', level) {
      forall l: nat | level < l <= m ensures Fresh(up, reg, l) { assert Fresh(up, reg', l); }
    }
  }

  // What the walk finds at `curr`.
  lemma WalkFinds(m: nat, g: Shared, th: Thread, reg: Reg, up: Towers, a: Act, ranks: Ranks)
    requires Alone(m, g, th, reg, up, a, ranks) && reg.phase.Walk?
    ensures
      var Walk(l, curr) := reg.phase;
      (At(up, curr, l).marked || g.nodes[curr].key < th.key) ==>
        Pos(g.nodes, ranks, l, At(up, curr, l).next) < Pos(g.nodes, ranks, l, curr)
  {
    hide ListInv, ThreadOk, TowersOk, RanksOk, Staged, Noted, OwnOk, Pos, Before, StepUp;
    HeadIsLow(g, th);
    var Walk(l, curr) := reg.phase;
    TailUnmarked(m, g.nodes, up, l);
    LinksHere(m, g.nodes, up, ranks, l, curr);
    if At(up, curr, l).marked || g.nodes[curr].key < th.key {
      PosDrops(g.nodes, ranks, l, curr, At(up, curr, l).next);
    }
  }

  lemma WalkNearer(m: nat, g: Shared, th: Thread, reg: Reg, up: Towers, a: Act, ranks: Ranks)
    requires Alone(m, g, th, reg, up, a, ranks) && reg.phase.Walk?
    ensures Nearer(m, g, th, reg, up, a, ranks)
  {
    hide ListInv, ThreadOk, TowersOk, RanksOk, ThreadRank, Staged, RegOk, OwnOk, Firm, Pos, Laps, Span, Turns;
    TwoNodes(g);
    HeadIsLow(g, th);
    var Walk(l, curr) := reg.phase;
    var (b, reg', _) := Effect(m, g, th, reg, up, a);
    var pc' := Outcome(g, th, b).0.pc;
    WalkFinds(m, g, th, reg, up, a, ranks);
    LevelBounds(m, up, th.pc, reg);
    SpanIs(m, g.nodes, l);
    if At(up, curr, l).marked || g.nodes[curr].key < th.key {
      StepFirm(m, g, th, reg, up, l, curr, pc', reg');
      TurnsStay(th.pc.goal, Firm(m, g.nodes, up, th.pc, reg), Firm(m, g.nodes, up, pc', reg'), Span(m, g.nodes));
    } else {
      StopFirm(m, g.nodes, up, th.key, th.pc, reg, reg', l);
      TurnsStay(th.pc.goal, Firm(m, g.nodes, up, th.pc, reg), Firm(m, g.nodes, up, pc', reg'), Span(m, g.nodes));
    }
  }

  lemma LevelBounds(m: nat, up: Towers, pc: Pc, reg: Reg)
    requires RegOk(m, up, pc, reg) && (reg.phase.Walk? || reg.phase.Cut?)
    ensures 1 <= reg.phase.level <= m && (reg.phase.Cut? ==> !pc.goal.Get?) && Has(up, reg.phase.curr, reg.phase.level)
    ensures pc.Route? && Has(up, pc.start, reg.phase.level)
  {
  }

  // The walk goes on.
  lemma StepFirm(m: nat, g: Shared, th: Thread, reg: Reg, up: Towers, l: nat, curr: Ptr, pc': Pc, reg': Reg)
    requires th.pc.Route? && reg.phase == Walk(l, curr) && Has(up, curr, l) && curr in g.nodes
    requires l <= |reg.preds| && l <= |reg.succs| && (At(up, curr, l).marked || g.nodes[curr].key < th.key)
    requires reg' == AfterWalk(g, th, reg, up, l, curr)
    requires pc' == if At(up, curr, l).marked then th.pc else Route(th.pc.goal, curr)
    ensures !th.pc.goal.Get? || !At(up, curr, l).marked ==>
      (Firm(m, g.nodes, up, th.pc, reg) ==> Firm(m, g.nodes, up, pc', reg'))
  {
    hide FreshAbove;
    SameFresh(m, up, reg, reg', l);
  }

  lemma StopFirm(m: nat, nodes: Heap, up: Towers, key: real, pc: Pc, reg: Reg, reg': Reg, l: nat)
    requires Staged(nodes, up, key) && pc.Route? && pc.start in nodes && nodes[pc.start].key < key
    requires reg.phase.Walk? && reg.phase.level == l >= 1 && l <= |reg.preds| && l <= |reg.succs|
    requires reg' == reg.(phase := Descend(l - 1), preds := reg.preds[l - 1 := pc.start],
                          succs := reg.succs[l - 1 := reg.phase.curr])
    ensures Firm(m, nodes, up, pc, reg) ==> Firm(m, nodes, up, pc, reg')
  {
    if Firm(m, nodes, up, pc, reg) {
      assert StagedAt(nodes, up, pc.start, l);
      forall k: nat | l - 1 < k <= m ensures Fresh(up, reg', k) { assert k > l ==> Fresh(up, reg, k); }
    }
  }

  lemma PutFresh(m: nat, up: Towers, reg: Reg, reg': Reg, p: Ptr, level: nat, link: Link, floor: nat)
    requires Has(up, p, level) && reg'.preds == reg.preds && reg'.succs == reg.succs
    requires level <= floor || forall k :: floor <= k < m && k < |reg.preds| ==> reg.preds[k] != p
    ensures FreshAbove(m, up, reg, floor) ==> FreshAbove(m, Put(up, p, level, link), reg', floor)
  {
    var up' := Put(up, p, level, link);
    if FreshAbove(m, up, reg, floor) {
      forall l: nat | floor < l <= m ensures Fresh(up', reg', l) { assert Fresh(up, reg, l); }
    }
  }

  // A search that starts again at head is firm.
  lemma HeadFirm(m: nat, nodes: Heap, up: Towers, ranks: Ranks, pc: Pc, reg: Reg)
    requires RanksOk(m, nodes, up, ranks) && TowersOk(m, nodes, up) && HEAD in nodes && !nodes[HEAD].marked
    requires pc.Route? && pc.start == HEAD && reg.phase == Descend(m)
    ensures Firm(m, nodes, up, pc, reg)
  {
    assert HeadLinked(up, m);
  }

  lemma CutNearer(m: nat, g: Shared, th: Thread, reg: Reg, up: Towers, a: Act, ranks: Ranks)
    requires Alone(m, g, th, reg, up, a, ranks) && reg.phase.Cut?
    ensures Nearer(m, g, th, reg, up, a, ranks)
  {
    hide ListInv, ThreadOk, TowersOk, RanksOk, NotedAbove, Staged, RegOk, OwnOk, Firm, Pos, Laps, Span, Lap, Before,
      Turns, Put;
    TwoNodes(g);
    HeadIsLow(g, th);
    var Cut(l, curr, succ) := reg.phase;
    var (b, reg', up') := Effect(m, g, th, reg, up, a);
    LevelBounds(m, up, th.pc, reg);
    SpanIs(m, g.nodes, l);
    SpanIs(m, g.nodes, m);
    if At(up, th.pc.start, l) == Link(curr, false) {
      PosDrops(g.nodes, ranks, l, curr, succ);
      CutFirm(m, g.nodes, up, th.pc, reg, reg', l, curr, succ);
      TurnsStay(th.pc.goal, Firm(m, g.nodes, up, th.pc, reg), Firm(m, g.nodes, up', th.pc, reg'), Span(m, g.nodes));
    } else {
      NotFirm(m, g.nodes, up, th.pc, reg);
      HeadFirm(m, g.nodes, up, ranks, Route(th.pc.goal, HEAD), reg');
      TurnLeft(th.pc.goal, Span(m, g.nodes));
    }
  }

  lemma CutFirm(m: nat, nodes: Heap, up: Towers, pc: Pc, reg: Reg, reg': Reg, l: nat, curr: Ptr, succ: Ptr)
    requires pc.Route? && reg.phase == Cut(l, curr, succ) && Has(up, pc.start, l)
    requires reg' == reg.(phase := Walk(l, succ))
    ensures Firm(m, nodes, up, pc, reg) ==> Firm(m, nodes, Put(up, pc.start, l, Link(succ, false)), pc, reg')
  {
    hide FreshAbove;
    PutFresh(m, up, reg, reg', pc.start, l, Link(succ, false), l);
  }

  lemma NotFirm(m: nat, nodes: Heap, up: Towers, pc: Pc, reg: Reg)
    requires pc.Route? && reg.phase.Cut? && Has(up, pc.start, reg.phase.level)
    requires At(up, pc.start, reg.phase.level) != Link(reg.phase.curr, false)
    ensures !Firm(m, nodes, up, pc, reg)
  {
  }

  // A predecessor is never the node that is being linked.
  lemma OtherPreds(m: nat, nodes: Heap, ranks: Ranks, key: real, pc: Pc, reg: Reg)
    requires ThreadRank(m, nodes, ranks, key, pc, reg) && (reg.phase.Store? || reg.phase.Join?) && pc.CountAdd?
    ensures reg.node in nodes && nodes[reg.node].key == key
    ensures forall k :: 0 <= k < m && k < |reg.preds| ==> reg.preds[k] != reg.node
  {
    forall k | 0 <= k < m && k < |reg.preds| ensures reg.preds[k] != reg.node {
      assert NotedRank(nodes, ranks, key, reg, k + 1);
    }
  }

  lemma StoreNearer(m: nat, g: Shared, th: Thread, reg: Reg, up: Towers, a: Act, ranks: Ranks)
    requires Alone(m, g, th, reg, up, a, ranks) && reg.phase.Store?
    ensures Nearer(m, g, th, reg, up, a, ranks)
  {
    hide ListInv, ThreadOk, TowersOk, RanksOk, ThreadRank, Staged, Noted, FreshAbove, Span;
    var l, reg' := reg.phase.level, Effect(m, g, th, reg, up, a).1;
    OtherPreds(m, g.nodes, ranks, th.key, th.pc, reg);
    PutFresh(m, up, reg, reg', reg.node, l, Link(reg.succs[l - 1], false), l - 1);
  }

  lemma JoinNearer(m: nat, g: Shared, th: Thread, reg: Reg, up: Towers, a: Act, ranks: Ranks)
    requires Alone(m, g, th, reg, up, a, ranks) && reg.phase.Join?
    ensures Nearer(m, g, th, reg, up, a, ranks)
  {
    hide ListInv, ThreadOk, TowersOk, RanksOk, ThreadRank, Staged, Noted, FreshAbove, Span, Laps, Lap, RanksAfter;
    TwoNodes(g);
    var l, reg' := reg.phase.level, Effect(m, g, th, reg, up, a).1;
    SpanIs(m, g.nodes, m);
    FreshHere(m, up, reg, l);
    if At(up, reg.preds[l - 1], l) == Link(reg.succs[l - 1], false) {
      PutFresh(m, up, reg, reg', reg.preds[l - 1], l, Link(reg.node, false), l);
    } else {
      HeadFirm(m, g.nodes, up, ranks, Route(Help, HEAD), reg');
    }
  }

  lemma FreshHere(m: nat, up: Towers, reg: Reg, l: nat)
    requires 1 <= l <= m
    ensures FreshAbove(m, up, reg, l - 1) ==> Fresh(up, reg, l) && FreshAbove(m, up, reg, l)
  {
  }

  lemma LookNearer(m: nat, g: Shared, th: Thread, reg: Reg, up: Towers, a: Act, ranks: Ranks)
    requires Alone(m, g, th, reg, up, a, ranks) && (reg.phase.Look? || reg.phase.Flag?)
    ensures Nearer(m, g, th, reg, up, a, ranks)
  {
    hide ListInv, ThreadOk, TowersOk, RanksOk, ThreadRank, Staged, Noted, FreshAbove, Span, Laps, Lap;
  }

  // ---------------------------------------------------------------------------
  // On level 0
  // ---------------------------------------------------------------------------

  lemma LoadAhead(g: Shared, th: Thread)
    requires ListInv(g) && ThreadOk(g, th) && th.pc.Load?
    ensures
      var curr := th.pc.curr;
      && curr in g.nodes && th.key < POS_INF
      && (g.nodes[curr].marked || g.nodes[curr].key < th.key ==>
            Ahead(g.nodes, g.nodes[curr].next) < Ahead(g.nodes, curr))
  {
    hide Ahead, Retired, CellsOk;
    var curr := th.pc.curr;
    if g.nodes[curr].marked || g.nodes[curr].key < th.key {
      assert Up(g.nodes, curr);
      AheadDrops(g.nodes, curr, g.nodes[curr].next);
    }
  }

  lemma LoadNearer(m: nat, g: Shared, th: Thread, reg: Reg, up: Towers, a: Act, ranks: Ranks)
    requires Alone(m, g, th, reg, up, a, ranks) && reg.phase.Below? && th.pc.Load?
    ensures Nearer(m, g, th, reg, up, a, ranks)
  {
    hide ListInv, ThreadOk, TowersOk, RanksOk, ThreadRank, Staged, RegOk, StepUp, Firm, Ahead, Laps, Span, Turns,
      AfterLoad, AfterGo, AfterPublish;
    TwoNodes(g);
    LoadAhead(g, th);
    SpanIs(m, g.nodes, m);
    LoadFits(m, g, th, reg, up);
    NoTower(g, th, reg, up, a.memory);
    if g.nodes[th.pc.curr].marked || g.nodes[th.pc.curr].key < th.key {
      LoadOn(m, g, th, reg, up, ranks, a.memory);
    } else {
      LoadEnds(m, g, th, reg, up, ranks, a.memory);
    }
  }

  // Heights and rungs are those of the list.
  ghost predicate LoadOk(m: nat, g: Shared, th: Thread, reg: Reg, up: Towers) {
    && th.pc.Load? && reg.phase.Below? && th.pc.curr in g.nodes && Height(up, th.pc.curr) <= m
    && (th.pc.goal.Help? ==> 1 <= reg.rung <= reg.top <= m)
  }

  lemma LoadFits(m: nat, g: Shared, th: Thread, reg: Reg, up: Towers)
    requires MoverOk(m, g, th, reg, up) && th.pc.Load? && reg.phase.Below? && Active(th)
    ensures LoadOk(m, g, th, reg, up)
  {
    hide ListInv, Noted;
  }

  lemma LoadOn(m: nat, g: Shared, th: Thread, reg: Reg, up: Towers, ranks: Ranks, n: Ptr)
    requires LoadOk(m, g, th, reg, up) && (g.nodes[th.pc.curr].marked || g.nodes[th.pc.curr].key < th.key)
    requires Ahead(g.nodes, g.nodes[th.pc.curr].next) < Ahead(g.nodes, th.pc.curr)
    ensures
      var pc' := AfterLoad(th, g.nodes[th.pc.curr]);
      0 <= Weight(m, g.nodes, up, ranks, pc', AfterGo(m, up, reg, th.pc, pc', n))
        < Weight(m, g.nodes, up, ranks, th.pc, reg)
  {
    hide FreshAbove, Ahead, Span, Turns;
    var pc' := AfterLoad(th, g.nodes[th.pc.curr]);
    TurnsStay(th.pc.goal, Firm(m, g.nodes, up, th.pc, reg), Firm(m, g.nodes, up, pc', reg), Span(m, g.nodes));
  }

  lemma LoadEnds(m: nat, g: Shared, th: Thread, reg: Reg, up: Towers, ranks: Ranks, n: Ptr)
    requires LoadOk(m, g, th, reg, up) && !g.nodes[th.pc.curr].marked && g.nodes[th.pc.curr].key >= th.key
    requires Span(m, g.nodes) >= 12 * m + 12
    ensures
      var pc' := AfterLoad(th, g.nodes[th.pc.curr]);
      0 <= Weight(m, g.nodes, up, ranks, pc', AfterGo(m, up, reg, th.pc, pc', n))
        < Weight(m, g.nodes, up, ranks, th.pc, reg)
  {
    hide FreshAbove, Ahead, Span, Firm;
    EndFirm(m, g, th, reg, up, n);
  }

  // The end of a search leaves its registers in order.
  lemma EndFirm(m: nat, g: Shared, th: Thread, reg: Reg, up: Towers, n: Ptr)
    requires LoadOk(m, g, th, reg, up) && !g.nodes[th.pc.curr].marked && g.nodes[th.pc.curr].key >= th.key
    ensures
      var pc' := AfterLoad(th, g.nodes[th.pc.curr]);
      (pc'.Publish? || pc'.CountAdd?) && Firm(m, g.nodes, up, th.pc, reg) ==>
        Firm(m, g.nodes, up, pc', AfterGo(m, up, reg, th.pc, pc', n))
  {
    hide FreshAbove;
    var pc' := AfterLoad(th, g.nodes[th.pc.curr]);
    var reg' := AfterGo(m, up, reg, th.pc, pc', n);
    SameFresh(m, up, reg, reg', 0);
    if pc'.CountAdd? { FreshUp(m, up, reg', 0, reg.rung - 1); }
  }

  lemma FreshUp(m: nat, up: Towers, reg: Reg, level: nat, level': nat)
    requires level <= level'
    ensures FreshAbove(m, up, reg, level) ==> FreshAbove(m, up, reg, level')
  {
  }

  lemma SpliceAhead(g: Shared, th: Thread)
    requires ListInv(g) && ThreadOk(g, th) && th.pc.Splice?
    ensures th.pc.curr in g.nodes && th.pc.pred in g.nodes && !th.pc.goal.Get?
    ensures Ahead(g.nodes, th.pc.succ) < Ahead(g.nodes, th.pc.curr)
  {
    hide Ahead, Retired, CellsOk;
    assert Up(g.nodes, th.pc.curr);
    AheadDrops(g.nodes, th.pc.curr, th.pc.succ);
  }

  // The compare-and-swaps of level 0.
  lemma CasOutcome(g: Shared, th: Thread, n: Ptr)
    requires Enabled(g, th, Go(n))
    ensures
      var (th', g') := Outcome(g, th, Go(n));
      match th.pc
      case Splice(goal, pred, curr, succ) =>
        if CasOk(g.nodes, pred, curr)
        then th'.pc == Load(goal, pred, succ) && g'.nodes == g.nodes[pred := g.nodes[pred].(next := succ)]
        else th'.pc == Route(goal, HEAD) && g'.nodes == g.nodes
      case Publish(pred, succ) =>
        if CasOk(g.nodes, pred, succ)
        then
          && th'.pc == CountAdd && n !in g.nodes
          && g'.nodes == g.nodes[n := Node(th.key, succ, false)][pred := g.nodes[pred].(next := n)]
        else th'.pc == Route(Insert, HEAD) && g'.nodes == g.nodes
      case Mark(node, succ) =>
        if CasOk(g.nodes, node, succ)
        then th'.pc == Route(Unlink(node), HEAD) && g'.nodes == g.nodes[node := g.nodes[node].(marked := true)]
        else th'.pc == Recheck(node) && g'.nodes == g.nodes
      case _ => true
  {
    hide AfterLoad, Counted;
  }

  lemma SpliceNearer(m: nat, g: Shared, th: Thread, reg: Reg, up: Towers, a: Act, ranks: Ranks)
    requires Alone(m, g, th, reg, up, a, ranks) && reg.phase.Below? && th.pc.Splice?
    ensures Nearer(m, g, th, reg, up, a, ranks)
  {
    hide ListInv, ThreadOk, TowersOk, RanksOk, ThreadRank, Staged, RegOk, StepUp, Firm, Ahead, Laps, Span, Turns,
      AfterPublish, Lap, Outcome, Enabled, CasOk;
    TwoNodes(g);
    SpliceAhead(g, th);
    CasOutcome(g, th, a.memory);
    SpanIs(m, g.nodes, m);
    NoTower(g, th, reg, up, a.memory);
    var Splice(goal, pred, curr, succ) := th.pc;
    if CasOk(g.nodes, pred, curr) {
      var nodes' := g.nodes[pred := g.nodes[pred].(next := succ)];
      var pc' := Load(goal, pred, succ);
      AheadStays(g.nodes, nodes', succ);
      SameSpan(m, g.nodes, nodes');
      SpliceFirm(m, g.nodes, nodes', up, th.pc, pc', reg);
      TurnsStay(goal, Firm(m, g.nodes, up, th.pc, reg), Firm(m, nodes', up, pc', reg), Span(m, g.nodes));
    } else {
      Unfirm(m, g.nodes, up, th.pc, reg);
      HeadFirm(m, g.nodes, up, ranks, Route(goal, HEAD), reg.(phase := Descend(m)));
      TurnLeft(goal, Span(m, g.nodes));
    }
  }

  lemma SameSpan(m: nat, nodes: Heap, nodes': Heap)
    requires |nodes'| == |nodes|
    ensures Span(m, nodes') == Span(m, nodes)
  {
  }

  lemma SpliceFirm(m: nat, nodes: Heap, nodes': Heap, up: Towers, pc: Pc, pc': Pc, reg: Reg)
    requires reg.phase.Below? && pc.Splice? && pc' == Load(pc.goal, pc.pred, pc.succ) && CasOk(nodes, pc.pred, pc.curr)
    requires nodes' == nodes[pc.pred := nodes[pc.pred].(next := pc.succ)]
    ensures Firm(m, nodes, up, pc, reg) ==> Firm(m, nodes', up, pc', reg)
  {
  }

  lemma Unfirm(m: nat, nodes: Heap, up: Towers, pc: Pc, reg: Reg)
    requires reg.phase.Below?
    ensures pc.Splice? && !CasOk(nodes, pc.pred, pc.curr) ==> !Firm(m, nodes, up, pc, reg)
    ensures pc.Publish? && !CasOk(nodes, pc.pred, pc.succ) ==> !Firm(m, nodes, up, pc, reg)
  {
  }

  lemma PublishNearer(m: nat, g: Shared, th: Thread, reg: Reg, up: Towers, a: Act, ranks: Ranks)
    requires Alone(m, g, th, reg, up, a, ranks) && reg.phase.Below? && th.pc.Publish?
    ensures Nearer(m, g, th, reg, up, a, ranks)
  {
    hide ListInv, ThreadOk, TowersOk, RanksOk, ThreadRank, Staged, RegOk, StepUp, Firm, Laps, Span, Turns, AfterPublish,
      Lap, Outcome, Enabled, CasOk;
    TwoNodes(g);
    SpanIs(m, g.nodes, m);
    PublishFits(m, g, th, reg, up);
    CasOutcome(g, th, a.memory);
    var n := a.memory;
    var Publish(pred, succ) := th.pc;
    if CasOk(g.nodes, pred, succ) {
      var nodes' := g.nodes[n := Node(th.key, succ, false)][pred := g.nodes[pred].(next := n)];
      SpanGrows(m, g.nodes, nodes', n);
      PublishFirm(m, g, nodes', th, reg, up, n);
    } else {
      NoTower(g, th, reg, up, n);
      Unfirm(m, g.nodes, up, th.pc, reg);
      HeadFirm(m, g.nodes, up, ranks, Route(Insert, HEAD), reg.(phase := Descend(m)));
      InsertTurn(Span(m, g.nodes));
    }
  }

  lemma InsertTurn(span: nat)
    ensures Turns(Insert, true, span) == span
  {
  }

  lemma PublishFits(m: nat, g: Shared, th: Thread, reg: Reg, up: Towers)
    requires MoverOk(m, g, th, reg, up) && th.pc.Publish? && reg.phase.Below?
    ensures th.pc.pred in g.nodes && reg.top <= m && |reg.preds| == m && |reg.succs| == m && up.Keys == g.nodes.Keys
  {
    hide ListInv;
  }

  lemma SpanGrows(m: nat, nodes: Heap, nodes': Heap, n: Ptr)
    requires nodes'.Keys == nodes.Keys + {n} && n !in nodes
    ensures Span(m, nodes') == Span(m, nodes) + 2 * (m + 1)
  {
    assert |nodes'| == |nodes'.Keys| && |nodes| == |nodes.Keys|;
    LapsGrow(m + 1, Lap(nodes));
  }

  // The published node is on none of the links that were noted.
  lemma PublishFirm(m: nat, g: Shared, nodes': Heap, th: Thread, reg: Reg, up: Towers, n: Ptr)
    requires th.pc.Publish? && reg.phase.Below? && reg.top <= m && |reg.succs| == m && n !in up
    ensures
      var reg' := AfterGo(m, up, reg, th.pc, CountAdd, n);
      var up' := AfterPublish(g, th, reg, up, n);
      Firm(m, g.nodes, up, th.pc, reg) ==> Firm(m, nodes', up', CountAdd, reg')
  {
    var reg' := AfterGo(m, up, reg, th.pc, CountAdd, n);
    var up' := AfterPublish(g, th, reg, up, n);
    if Firm(m, g.nodes, up, th.pc, reg) {
      forall l: nat | 0 < l <= m ensures Fresh(up', reg', l) { assert Fresh(up, reg, l); }
    }
  }

  lemma MarkNearer(m: nat, g: Shared, th: Thread, reg: Reg, up: Towers, a: Act, ranks: Ranks)
    requires Alone(m, g, th, reg, up, a, ranks) && reg.phase.Below? && th.pc.Mark?
    ensures Nearer(m, g, th, reg, up, a, ranks)
  {
    hide ListInv, ThreadOk, TowersOk, RanksOk, ThreadRank, Staged, RegOk, StepUp, Firm, Laps, Span, Turns, AfterPublish,
      Outcome, Enabled, CasOk;
    TwoNodes(g);
    SpanIs(m, g.nodes, m);
    CasOutcome(g, th, a.memory);
    NoTower(g, th, reg, up, a.memory);
    MarkFirm(m, g, th, reg, up);
    var Mark(node, succ) := th.pc;
    if CasOk(g.nodes, node, succ) {
      var nodes' := g.nodes[node := g.nodes[node].(marked := true)];
      assert |nodes'.Keys| == |g.nodes.Keys|;
      SameSpan(m, g.nodes, nodes');
      RanksKeys(m, g.nodes, nodes', up, ranks);
      SameTowers(m, g.nodes, nodes', up);
      HeadFirm(m, nodes', up, ranks, Route(Unlink(node), HEAD), reg.(phase := Descend(m)));
      UnlinkTurn(node, Span(m, g.nodes));
    }
  }

  lemma UnlinkTurn(v: Ptr, span: nat)
    ensures Turns(Unlink(v), true, span) == span
  {
  }

  lemma SameTowers(m: nat, nodes: Heap, nodes': Heap, up: Towers)
    requires TowersOk(m, nodes, up) && nodes'.Keys == nodes.Keys
    ensures TowersOk(m, nodes', up)
  {
  }

  lemma MarkFirm(m: nat, g: Shared, th: Thread, reg: Reg, up: Towers)
    requires ListInv(g) && ThreadOk(g, th) && th.pc.Mark? && reg.phase.Below?
    ensures Firm(m, g.nodes, up, th.pc, reg) <==> CasOk(g.nodes, th.pc.node, th.pc.succ)
    ensures th.pc.node in g.nodes && th.pc.node != HEAD
  {
  }

  lemma RestNearer(m: nat, g: Shared, th: Thread, reg: Reg, up: Towers, a: Act, ranks: Ranks)
    requires Alone(m, g, th, reg, up, a, ranks) && reg.phase.Below?
    requires !th.pc.Load? && !th.pc.Splice? && !th.pc.Publish? && !th.pc.Mark?
    ensures Nearer(m, g, th, reg, up, a, ranks)
  {
    hide ListInv, ThreadOk, TowersOk, RanksOk, ThreadRank, Staged, Noted, StepUp, Laps, Span, Turns, AfterPublish,
      Lap, FreshAbove, AfterLoad, Counted;
    NoTower(g, th, reg, up, a.memory);
  }

  lemma AloneNearer(m: nat, g: Shared, th: Thread, reg: Reg, up: Towers, a: Act, ranks: Ranks)
    requires Alone(m, g, th, reg, up, a, ranks)
    ensures Nearer(m, g, th, reg, up, a, ranks)
  {
    hide MoverOk, StepUp, RanksOk, ThreadRank, Staged, Nearer;
    match reg.phase
    case Descend(_) => DescendNearer(m, g, th, reg, up, a, ranks);
    case Walk(_, _) => WalkNearer(m, g, th, reg, up, a, ranks);
    case Cut(_, _, _) => CutNearer(m, g, th, reg, up, a, ranks);
    case Store(_) => StoreNearer(m, g, th, reg, up, a, ranks);
    case Join(_) => JoinNearer(m, g, th, reg, up, a, ranks);
    case Look(_) => LookNearer(m, g, th, reg, up, a, ranks);
    case Flag(_, _) => LookNearer(m, g, th, reg, up, a, ranks);
    case Below =>
      if th.pc.Load? { LoadNearer(m, g, th, reg, up, a, ranks); }
      else if th.pc.Splice? { SpliceNearer(m, g, th, reg, up, a, ranks); }
      else if th.pc.Publish? { PublishNearer(m, g, th, reg, up, a, ranks); }
      else if th.pc.Mark? { MarkNearer(m, g, th, reg, up, a, ranks); }
      else { RestNearer(m, g, th, reg, up, a, ranks); }
  }

  // ---------------------------------------------------------------------------
  // Its own steps keep the levels in order below its key
  // ---------------------------------------------------------------------------

  // Nodes below `key` keep their keys and their marks, and no new ones come.
  ghost predicate MarksBelow(nodes: Heap, up: Towers, nodes': Heap, up': Towers, key: real) {
    forall p {:trigger p in nodes'} :: p in nodes' && nodes'[p].key < key ==>
      && p in nodes && nodes[p].key == nodes'[p].key && nodes[p].marked == nodes'[p].marked
      && p in up && p in up' && |up'[p]| == |up[p]|
      && forall k :: 0 <= k < |up[p]| ==> up'[p][k].marked == up[p][k].marked
  }

  lemma StagedStays(nodes: Heap, up: Towers, nodes': Heap, up': Towers, key: real)
    requires Staged(nodes, up, key) && MarksBelow(nodes, up, nodes', up', key)
    ensures Staged(nodes', up', key)
  {
    forall p, l: nat | p in nodes' && nodes'[p].key < key ensures StagedAt(nodes', up', p, l) {
      assert StagedAt(nodes, up, p, l);
    }
  }

  lemma PutMarks(m: nat, nodes: Heap, up: Towers, p: Ptr, l: nat, link: Link, key: real)
    requires TowersOk(m, nodes, up) && Has(up, p, l)
    requires p !in nodes || key <= nodes[p].key || At(up, p, l).marked == link.marked
    ensures MarksBelow(nodes, up, nodes, Put(up, p, l, link), key)
  {
  }

  // The nodes an operation marks, stores into or publishes have its key.
  lemma OwnMarks(m: nat, g: Shared, th: Thread, reg: Reg, up: Towers, a: Act, ranks: Ranks)
    requires Alone(m, g, th, reg, up, a, ranks)
    ensures
      var (b, _, up') := Effect(m, g, th, reg, up, a);
      Enabled(g, th, b) && MarksBelow(g.nodes, up, Outcome(g, th, b).1.nodes, up', th.key)
  {
    hide ListInv, ThreadOk, TowersOk, RanksOk, ThreadRank, Staged, Noted, Put, MarksBelow, Advance, AfterPublish;
    SameAll(m, g.nodes, up, th.key);
    match reg.phase
    case Cut(l, curr, succ) =>
      if At(up, th.pc.start, l) == Link(curr, false) {
        PutMarks(m, g.nodes, up, th.pc.start, l, Link(succ, false), th.key);
      }
    case Store(l) =>
      OtherPreds(m, g.nodes, ranks, th.key, th.pc, reg);
      PutMarks(m, g.nodes, up, reg.node, l, Link(reg.succs[l - 1], false), th.key);
    case Join(l) =>
      if At(up, reg.preds[l - 1], l) == Link(reg.succs[l - 1], false) {
        PutMarks(m, g.nodes, up, reg.preds[l - 1], l, Link(reg.node, false), th.key);
      }
    case Flag(l, succ) =>
      DoomedKey(g, th);
      if At(up, th.pc.node, l) == Link(succ, false) {
        PutMarks(m, g.nodes, up, th.pc.node, l, Link(succ, true), th.key);
      }
    case Below => GoMarks(m, g, th, reg, up, a.memory);
    case _ =>
  }

  lemma SameAll(m: nat, nodes: Heap, up: Towers, key: real)
    requires TowersOk(m, nodes, up)
    ensures MarksBelow(nodes, up, nodes, up, key)
  {
  }

  lemma DoomedKey(g: Shared, th: Thread)
    requires ListInv(g) && ThreadOk(g, th) && (th.pc.LoadSucc? || th.pc.Mark?)
    ensures th.pc.node in g.nodes && g.nodes[th.pc.node].key == th.key
  {
  }

  lemma GoMarks(m: nat, g: Shared, th: Thread, reg: Reg, up: Towers, n: Ptr)
    requires ListInv(g) && ThreadOk(g, th) && TowersOk(m, g.nodes, up) && Enabled(g, th, Go(n))
    requires reg.top <= |reg.succs|
    ensures MarksBelow(g.nodes, up, Outcome(g, th, Go(n)).1.nodes, AfterPublish(g, th, reg, up, n), th.key)
  {
    hide ListInv, ThreadOk, TowersOk, Enabled, Outcome, AfterPublish, MarksBelow;
    SameAll(m, g.nodes, up, th.key);
    if th.pc.Splice? || th.pc.Publish? || th.pc.Mark? {
      CasOutcome(g, th, n);
      if th.pc.Mark? { DoomedKey(g, th); }
      CasMarks(m, g, th, reg, up, n);
    } else {
      NoTower(g, th, reg, up, n);
      SameNodes(g, th, n);
    }
  }

  lemma SameNodes(g: Shared, th: Thread, n: Ptr)
    requires Enabled(g, th, Go(n)) && !th.pc.Splice? && !th.pc.Publish? && !th.pc.Mark?
    ensures Outcome(g, th, Go(n)).1.nodes == g.nodes
  {
    hide AfterLoad, Counted;
  }

  lemma CasMarks(m: nat, g: Shared, th: Thread, reg: Reg, up: Towers, n: Ptr)
    requires TowersOk(m, g.nodes, up) && Enabled(g, th, Go(n)) && reg.top <= |reg.succs|
    requires th.pc.Splice? || th.pc.Publish? || th.pc.Mark?
    requires th.pc.Mark? ==> th.pc.node in g.nodes && g.nodes[th.pc.node].key == th.key
    ensures MarksBelow(g.nodes, up, Outcome(g, th, Go(n)).1.nodes, AfterPublish(g, th, reg, up, n), th.key)
  {
    hide Enabled, Outcome;
    CasOutcome(g, th, n);
  }

  // ---------------------------------------------------------------------------
  // How far that is at most
  // ---------------------------------------------------------------------------

  lemma {:induction false} LapsMean(l: nat, lap: nat)
    ensures Laps(l, lap) == l * lap
  {
    if l > 0 { LapsMean(l - 1, lap); }
  }

  lemma TurnsMost(goal: Goal, firm: bool, span: nat)
    ensures Turns(goal, firm, span) <= 4 * span
  {
  }

  lemma WeightBound(m: nat, g: Shared, th: Thread, reg: Reg, up: Towers, ranks: Ranks)
    requires MoverOk(m, g, th, reg, up) && RanksOk(m, g.nodes, up, ranks)
    ensures Weight(m, g.nodes, up, ranks, th.pc, reg) <= 5 * ((m + 1) * (2 * |g.nodes| + 8))
  {
    hide ListInv, ThreadOk, TowersOk, RanksOk, Noted, OwnOk, Firm, Laps, Span, Turns, Pos, Ahead;
    TwoNodes(g);
    var l := match reg.phase case Descend(k) => k case Walk(k, _) => k case Cut(k, _, _) => k case _ => 0;
    SpanIs(m, g.nodes, l);
    SpanMeans(m, g.nodes);
    TurnsMost(GoalOf(th.pc), Firm(m, g.nodes, up, th.pc, reg), Span(m, g.nodes));
    match reg.phase
    case Walk(_, curr) => PosBound(m, g.nodes, up, ranks, l, curr);
    case Cut(_, curr, _) => PosBound(m, g.nodes, up, ranks, l, curr);
    case Below => BelowBound(m, g.nodes, th.pc, Firm(m, g.nodes, up, th.pc, reg));
    case Look(k) => LevelLow(m, g.nodes, up, th.pc.node, k);
    case Flag(k, _) => LevelLow(m, g.nodes, up, th.pc.node, k);
    case _ =>
  }

  lemma SpanMeans(m: nat, nodes: Heap)
    ensures Span(m, nodes) == (m + 1) * (2 * |nodes| + 8)
  {
    LapsMean(m + 1, Lap(nodes));
  }

  lemma LevelLow(m: nat, nodes: Heap, up: Towers, p: Ptr, l: nat)
    requires TowersOk(m, nodes, up) && Has(up, p, l)
    ensures l <= m
  {
  }

  lemma BelowBound(m: nat, nodes: Heap, pc: Pc, firm: bool)
    requires |nodes| >= 2 && Span(m, nodes) >= 12 * m + 12 && Lap(nodes) <= Span(m, nodes)
    ensures Below0(m, nodes, pc, firm) <= 5 * Span(m, nodes)
  {
    hide Span, Ahead;
    if pc.Load? || pc.Splice? { AheadBound(nodes, pc.curr); }
  }
}
