/** All levels of the lock-free skiplist under concurrency.
  *
  * Level 0 is module BottomList, step for step.  This module adds the levels
  * above it: where the next search goes down to, the predecessors and successors
  * a search leaves behind, the stores and compare-and-swaps by which `insert` links
  * its upper levels, and the marks `remove` sets there before it marks level 0.
  * Again every load, store and compare-and-swap on a link is one atomic step.
  * `m` is the list's highest level.
  */
module Tower {
  import opened BottomList
  import opened BottomSteps

  datatype Link = Link(next: Ptr, marked: bool)

  // The links of every node above level 0: level `l` is at index `l - 1`.
  type Towers = map<Ptr, seq<Link>>

  // Where a thread stands on the upper levels.
  datatype Phase =
    | Below                                     // level 0 says what comes next
    | Descend(level: nat)                       // reads the link of the start at `level`
    | Walk(level: nat, curr: Ptr)               // reads the link of `curr`
    | Cut(level: nat, curr: Ptr, succ: Ptr)     // unlinks `curr`, which it has found marked
    | Store(level: nat)                         // points the new node at its successor
    | Join(level: nat)                          // links the new node behind its predecessor
    | Look(level: nat)                          // reads the link of the node to be removed
    | Flag(level: nat, succ: Ptr)               // marks it

  // A thread's registers: the drawn height and the new node of an insert, the
  // next level to link, and what the last search found on each upper level.
  datatype Reg = Reg(phase: Phase, top: nat, node: Ptr, rung: nat, preds: seq<Ptr>, succs: seq<Ptr>)

  datatype State = State(base: BottomList.State, up: Towers, regs: map<Tid, Reg>)

  datatype Act =
    | Start(goal: Goal, key: real, val: Value, top: nat)
    | Move(memory: Ptr)   // the step the thread's registers determine

  predicate Has(up: Towers, p: Ptr, level: nat) {
    p in up && 1 <= level <= |up[p]|
  }

  function At(up: Towers, p: Ptr, level: nat): Link
    requires Has(up, p, level)
  {
    up[p][level - 1]
  }

  function Put(up: Towers, p: Ptr, level: nat, link: Link): Towers
    requires Has(up, p, level)
  {
    up[p := up[p][level - 1 := link]]
  }

  function Height(up: Towers, p: Ptr): nat {
    if p in up then |up[p]| else 0
  }

  // ---------------------------------------------------------------------------
  // Steps
  // ---------------------------------------------------------------------------

  predicate Ready(m: nat, g: Shared, th: Thread, reg: Reg, up: Towers, a: Act) {
    match a
    case Start(goal, key, val, top) => Enabled(g, th, Begin(goal, key, val)) && top <= m
    case Move(n) =>
      match reg.phase
      case Below => Enabled(g, th, Go(n)) && reg.top <= |reg.succs|
      case Descend(level) => th.pc.Route? && if level == 0 then Enabled(g, th, Enter) else Has(up, th.pc.start, level)
      case Walk(level, curr) =>
        th.pc.Route? && Has(up, curr, level) && curr in g.nodes && level <= |reg.preds| && level <= |reg.succs|
      case Cut(level, _, _) => th.pc.Route? && Has(up, th.pc.start, level)
      case Store(level) => th.pc.CountAdd? && Has(up, reg.node, level) && level <= |reg.succs|
      case Join(level) =>
        && th.pc.CountAdd? && 1 <= level <= |reg.preds| && level <= |reg.succs|
        && Has(up, reg.preds[level - 1], level)
      case Look(level) => th.pc.LoadSucc? && Has(up, th.pc.node, level)
      case Flag(level, _) => th.pc.LoadSucc? && Has(up, th.pc.node, level)
  }

  // What the step is on level 0, and the upper levels after it.
  function Effect(m: nat, g: Shared, th: Thread, reg: Reg, up: Towers, a: Act): (Action, Reg, Towers)
    requires Ready(m, g, th, reg, up, a)
  {
    match a
    case Start(goal, key, val, top) =>
      (Begin(goal, key, val), Reg(Descend(m), top, NULL, 0, seq(m, _ => NULL), seq(m, _ => NULL)), up)
    case Move(n) =>
      match reg.phase
      case Below => (Go(n), AfterGo(m, up, reg, th.pc, Outcome(g, th, Go(n)).0.pc, n), AfterPublish(g, th, reg, up, n))
      case Descend(level) =>
        if level == 0 then (Enter, reg.(phase := Below), up)
        else (Elsewhere, reg.(phase := Walk(level, At(up, th.pc.start, level).next)), up)
      case Walk(level, curr) => (WalkAction(g, th, up, level, curr), AfterWalk(g, th, reg, up, level, curr), up)
      case Cut(level, curr, succ) =>
        if At(up, th.pc.start, level) == Link(curr, false) then
          (Elsewhere, reg.(phase := Walk(level, succ)), Put(up, th.pc.start, level, Link(succ, false)))
        else (Reroute(HEAD), reg.(phase := Descend(m)), up)
      case Store(level) =>
        (Elsewhere, reg.(phase := Join(level)), Put(up, reg.node, level, Link(reg.succs[level - 1], false)))
      case Join(level) =>
        if At(up, reg.preds[level - 1], level) == Link(reg.succs[level - 1], false) then
          (Elsewhere,
           reg.(rung := level + 1, phase := if level < reg.top then Store(level + 1) else Below),
           Put(up, reg.preds[level - 1], level, Link(reg.node, false)))
        else (Assist, reg.(phase := Descend(m)), up)
      case Look(level) =>
        var link := At(up, th.pc.node, level);
        (Elsewhere, reg.(phase := if link.marked then LookFrom(level - 1) else Flag(level, link.next)), up)
      case Flag(level, succ) =>
        (Elsewhere, reg.(phase := Look(level)),
         if At(up, th.pc.node, level) == Link(succ, false) then Put(up, th.pc.node, level, Link(succ, true)) else up)
  }

  function LookFrom(level: nat): Phase {
    if level >= 1 then Look(level) else Below
  }

  // After a step on level 0 that took the program counter from `pc` to `pc'`.
  function AfterGo(m: nat, up: Towers, reg: Reg, pc: Pc, pc': Pc, n: Ptr): Reg {
    match pc'
    case Route(_, _) => reg.(phase := Descend(m))
    case CountAdd =>
      if pc.Publish? then reg.(node := n, rung := 1, phase := if reg.top >= 1 then Store(1) else Below)
      else reg.(phase := Store(reg.rung))
    case LoadSucc(node) => reg.(phase := LookFrom(Height(up, node)))
    case _ => reg
  }

  // A published node's upper links point to the successors found.
  function AfterPublish(g: Shared, th: Thread, reg: Reg, up: Towers, n: Ptr): Towers
    requires reg.top <= |reg.succs|
  {
    if th.pc.Publish? && CasOk(g.nodes, th.pc.pred, th.pc.succ) then
      up[n := seq(reg.top, l requires 0 <= l < reg.top => Link(reg.succs[l], false))]
    else up
  }

  function WalkAction(g: Shared, th: Thread, up: Towers, level: nat, curr: Ptr): Action
    requires Has(up, curr, level) && curr in g.nodes
  {
    if !At(up, curr, level).marked && g.nodes[curr].key < th.key then Reroute(curr) else Elsewhere
  }

  // (A get notes what it found as well, and never looks at it.)
  function AfterWalk(g: Shared, th: Thread, reg: Reg, up: Towers, level: nat, curr: Ptr): Reg
    requires th.pc.Route? && Has(up, curr, level) && curr in g.nodes
    requires level <= |reg.preds| && level <= |reg.succs|
  {
    var link := At(up, curr, level);
    if link.marked then
      reg.(phase := if th.pc.goal.Get? then Walk(level, link.next) else Cut(level, curr, link.next))
    else if g.nodes[curr].key < th.key then reg.(phase := Walk(level, link.next))
    else reg.(phase := Descend(level - 1), preds := reg.preds[level - 1 := th.pc.start],
              succs := reg.succs[level - 1 := curr])
  }

  ghost predicate Next(m: nat, s: State, t: Tid, a: Act, s': State) {
    && t in s.base.threads && t in s.regs && Ready(m, s.base.g, s.base.threads[t], s.regs[t], s.up, a)
    && var (b, reg, up) := Effect(m, s.base.g, s.base.threads[t], s.regs[t], s.up, a);
    && BottomList.Next(s.base, t, b, s'.base) && s'.regs == s.regs[t := reg] && s'.up == up
  }

  ghost predicate Init(m: nat, s: State) {
    && BottomList.Init(s.base) && s.regs.Keys == s.base.threads.Keys
    && (forall t :: t in s.regs ==> s.regs[t].phase.Below?)
    && s.up == map[HEAD := seq(m, _ => Link(TAIL, false)), TAIL := seq(m, _ => Link(NULL, false))]
  }

  ghost predicate Behavior(m: nat, run: seq<State>) {
    && |run| > 0 && Init(m, run[0])
    && forall i {:trigger StepAt(m, run, i)} :: 0 <= i < |run| - 1 ==> StepAt(m, run, i)
  }

  ghost predicate StepAt(m: nat, run: seq<State>, i: int) {
    0 <= i < |run| - 1 && Stepped(m, run[i], run[i + 1])
  }

  ghost predicate Stepped(m: nat, s: State, s': State) {
    exists t, a :: Next(m, s, t, a, s')
  }

  // ---------------------------------------------------------------------------
  // Level 0 of a run of all levels is a run of level 0
  // ---------------------------------------------------------------------------

  function Bases(run: seq<State>): (r: seq<BottomList.State>)
    ensures |r| == |run| && forall i :: 0 <= i < |run| ==> r[i] == run[i].base
  {
    seq(|run|, i requires 0 <= i < |run| => run[i].base)
  }

  // So whatever holds of every run of level 0 holds of the whole skiplist.
  lemma BaseRun(m: nat, run: seq<State>)
    requires Behavior(m, run)
    ensures BottomList.Behavior(Bases(run))
  {
    hide Ready, Effect;
    var bases := Bases(run);
    forall i | 0 <= i < |bases| - 1 ensures BottomList.StepAt(bases, i) {
      assert StepAt(m, run, i);
      var t, a :| Next(m, run[i], t, a, run[i + 1]);
      var b := Effect(m, run[i].base.g, run[i].base.threads[t], run[i].regs[t], run[i].up, a).0;
      assert BottomList.Next(bases[i], t, b, bases[i + 1]);
    }
  }

  lemma BaseInv(m: nat, run: seq<State>, i: nat)
    requires Behavior(m, run) && i < |run|
    ensures Inv(run[i].base)
  {
    BaseRun(m, run);
    AlwaysInv(Bases(run), i);
  }

  // ---------------------------------------------------------------------------
  // Whoever is reached at a level has that level
  // ---------------------------------------------------------------------------

  ghost predicate LinkOk(up: Towers, p: Ptr, level: nat) {
    && Has(up, p, level)
    && if p == TAIL then At(up, p, level) == Link(NULL, false) else Has(up, At(up, p, level).next, level)
  }

  ghost predicate TowersOk(m: nat, nodes: Heap, up: Towers) {
    && up.Keys == nodes.Keys && HEAD in up && TAIL in up && |up[HEAD]| == m && |up[TAIL]| == m
    && (forall p :: p in up ==> |up[p]| <= m)
    && (forall p, l: nat {:trigger LinkOk(up, p, l)} :: Has(up, p, l) ==> LinkOk(up, p, l))
  }

  // What the searches left behind above `level` can be used there.
  ghost predicate Noted(m: nat, up: Towers, reg: Reg, level: nat) {
    && |reg.preds| == m && |reg.succs| == m
    && forall l {:trigger NotedAt(up, reg, l)} :: level < l <= m ==> NotedAt(up, reg, l)
  }

  ghost predicate NotedAt(up: Towers, reg: Reg, l: nat) {
    && 1 <= l <= |reg.preds| && l <= |reg.succs|
    && Has(up, reg.preds[l - 1], l) && reg.preds[l - 1] != TAIL && Has(up, reg.succs[l - 1], l)
  }

  ghost predicate RegOk(m: nat, up: Towers, pc: Pc, reg: Reg) {
    match reg.phase
    case Below => !pc.Route? && (!pc.Idle? && !pc.Returned? ==> reg.top <= m && Noted(m, up, reg, 0))
    case Descend(level) => SearchOk(m, up, pc, reg, level)
    case Walk(level, curr) => level >= 1 && SearchOk(m, up, pc, reg, level) && Has(up, curr, level)
    case Cut(level, curr, succ) =>
      level >= 1 && SearchOk(m, up, pc, reg, level) && Has(up, curr, level) && Has(up, succ, level) && !pc.goal.Get?
    case Store(level) => LinkingOk(m, up, pc, reg, level)
    case Join(level) => LinkingOk(m, up, pc, reg, level)
    case Look(level) => reg.top <= m && pc.LoadSucc? && Has(up, pc.node, level) && Noted(m, up, reg, 0)
    case Flag(level, _) => reg.top <= m && pc.LoadSucc? && Has(up, pc.node, level) && Noted(m, up, reg, 0)
  }

  // A search on level `level`, or about to go down to it.
  ghost predicate SearchOk(m: nat, up: Towers, pc: Pc, reg: Reg, level: nat) {
    && pc.Route? && level <= m && Height(up, pc.start) >= level && pc.start in up && Noted(m, up, reg, level)
    && reg.top <= m && OwnOk(up, pc, reg)
  }

  ghost predicate LinkingOk(m: nat, up: Towers, pc: Pc, reg: Reg, level: nat) {
    && pc.CountAdd? && level == reg.rung && Noted(m, up, reg, 0) && reg.top <= m && OwnOk(up, Route(Help, HEAD), reg)
  }

  // An insert that has published its node and not linked it everywhere.
  ghost predicate OwnOk(up: Towers, pc: Pc, reg: Reg) {
    Helping(pc) ==> 1 <= reg.rung <= reg.top && reg.node in up && |up[reg.node]| == reg.top && reg.node != TAIL
  }

  ghost predicate ThreadUp(m: nat, s: State, t: Tid)
    requires t in s.regs && t in s.base.threads
  {
    && RegOk(m, s.up, s.base.threads[t].pc, s.regs[t])
    && OwnOk(s.up, s.base.threads[t].pc, s.regs[t])
  }

  ghost predicate UpInv(m: nat, s: State) {
    && s.regs.Keys == s.base.threads.Keys && TowersOk(m, s.base.g.nodes, s.up)
    && forall t {:trigger ThreadUp(m, s, t)} :: t in s.regs ==> ThreadUp(m, s, t)
  }

  // Nodes keep their heights.
  ghost predicate Grown(up: Towers, up': Towers) {
    forall p :: p in up ==> p in up' && |up'[p]| == |up[p]|
  }

  lemma NotedStays(m: nat, up: Towers, up': Towers, reg: Reg, level: nat)
    requires Noted(m, up, reg, level) && Grown(up, up')
    ensures Noted(m, up', reg, level)
  {
    forall l | level < l <= m ensures NotedAt(up', reg, l) { assert NotedAt(up, reg, l); }
  }

  lemma RegStays(m: nat, up: Towers, up': Towers, pc: Pc, reg: Reg)
    requires RegOk(m, up, pc, reg) && OwnOk(up, pc, reg) && Grown(up, up')
    ensures RegOk(m, up', pc, reg) && OwnOk(up', pc, reg)
  {
    hide Noted;
    var level := match reg.phase
      case Descend(l) => l
      case Walk(l, _) => l
      case Cut(l, _, _) => l
      case _ => 0;
    if Noted(m, up, reg, level) { NotedStays(m, up, up', reg, level); }
  }

  lemma PutGrows(up: Towers, p: Ptr, level: nat, link: Link)
    requires Has(up, p, level)
    ensures Grown(up, Put(up, p, level, link)) && Put(up, p, level, link).Keys == up.Keys
  {
  }

  lemma PutOk(m: nat, nodes: Heap, up: Towers, p: Ptr, level: nat, link: Link)
    requires TowersOk(m, nodes, up) && Has(up, p, level) && p != TAIL && Has(up, link.next, level)
    ensures TowersOk(m, nodes, Put(up, p, level, link))
  {
    var up' := Put(up, p, level, link);
    forall q, l: nat | Has(up', q, l) ensures LinkOk(up', q, l) { assert LinkOk(up, q, l); }
  }

  lemma AddOk(m: nat, nodes: Heap, nodes': Heap, up: Towers, n: Ptr, tower: seq<Link>)
    requires TowersOk(m, nodes, up) && n !in nodes && nodes'.Keys == nodes.Keys + {n} && |tower| <= m
    requires forall l {:trigger tower[l]} :: 0 <= l < |tower| ==> Has(up, tower[l].next, l + 1)
    ensures TowersOk(m, nodes', up[n := tower]) && Grown(up, up[n := tower])
  {
    var up' := up[n := tower];
    forall q, l: nat | Has(up', q, l) ensures LinkOk(up', q, l) {
      if q == n {
        assert Has(up, tower[l - 1].next, l);
      } else {
        assert LinkOk(up, q, l);
      }
    }
  }

  ghost predicate StepUp(m: nat, g: Shared, th: Thread, reg: Reg, up: Towers, a: Act)
    requires Ready(m, g, th, reg, up, a)
  {
    var (b, reg', up') := Effect(m, g, th, reg, up, a);
    && Enabled(g, th, b)
    && var (th', g') := Outcome(g, th, b);
    && TowersOk(m, g'.nodes, up') && Grown(up, up')
    && RegOk(m, up', th'.pc, reg') && OwnOk(up', th'.pc, reg')
  }

  ghost predicate MoverOk(m: nat, g: Shared, th: Thread, reg: Reg, up: Towers) {
    && ListInv(g) && ThreadOk(g, th) && TowersOk(m, g.nodes, up)
    && RegOk(m, up, th.pc, reg) && OwnOk(up, th.pc, reg)
  }

  lemma HeadIsLow(g: Shared, th: Thread)
    requires ListInv(g) && ThreadOk(g, th) && th.pc.Route?
    ensures HEAD in g.nodes && g.nodes[HEAD].key < th.key && g.nodes[TAIL].key == POS_INF
    ensures th.pc.start in g.nodes && g.nodes[th.pc.start].key < th.key < POS_INF && th.pc.start != TAIL
  {
  }

  lemma NotedNext(m: nat, up: Towers, reg: Reg, level: nat, pred: Ptr, succ: Ptr)
    requires 1 <= level <= m && Noted(m, up, reg, level)
    requires Has(up, pred, level) && pred != TAIL && Has(up, succ, level)
    ensures Noted(m, up, reg.(phase := Descend(level - 1), preds := reg.preds[level - 1 := pred],
                              succs := reg.succs[level - 1 := succ]), level - 1)
  {
    var reg' := reg.(phase := Descend(level - 1), preds := reg.preds[level - 1 := pred],
                     succs := reg.succs[level - 1 := succ]);
    forall l | level - 1 < l <= m ensures NotedAt(up, reg', l) {
      if l > level { assert NotedAt(up, reg, l); }
    }
  }

  lemma StartUp(m: nat, g: Shared, th: Thread, reg: Reg, up: Towers, a: Act)
    requires MoverOk(m, g, th, reg, up) && Ready(m, g, th, reg, up, a) && a.Start?
    ensures StepUp(m, g, th, reg, up, a)
  {
  }

  lemma WalkUp(m: nat, g: Shared, th: Thread, reg: Reg, up: Towers, a: Act)
    requires MoverOk(m, g, th, reg, up) && Ready(m, g, th, reg, up, a) && a.Move? && reg.phase.Walk?
    ensures StepUp(m, g, th, reg, up, a)
  {
    hide ListInv, ThreadOk, Noted;
    HeadIsLow(g, th);
    var Walk(level, curr) := reg.phase;
    assert LinkOk(up, curr, level);
    var link := At(up, curr, level);
    if !link.marked && g.nodes[curr].key >= th.key { NotedNext(m, up, reg, level, th.pc.start, curr); }
    SameNoted(m, up, reg, AfterWalk(g, th, reg, up, level, curr), level);
  }

  // Only what the searches left behind matters.
  lemma SameNoted(m: nat, up: Towers, reg: Reg, reg': Reg, level: nat)
    requires Noted(m, up, reg, level)
    ensures reg'.preds == reg.preds && reg'.succs == reg.succs ==> Noted(m, up, reg', level)
  {
    if reg'.preds == reg.preds && reg'.succs == reg.succs {
      forall l | level < l <= m ensures NotedAt(up, reg', l) { assert NotedAt(up, reg, l); }
    }
  }

  lemma NothingNoted(m: nat, up: Towers, reg: Reg)
    requires |reg.preds| == m && |reg.succs| == m
    ensures Noted(m, up, reg, m)
  {
  }

  lemma NotedSizes(m: nat, up: Towers, reg: Reg, level: nat)
    requires Noted(m, up, reg, level)
    ensures |reg.preds| == m && |reg.succs| == m
  {
  }

  lemma SearchUp(m: nat, g: Shared, th: Thread, reg: Reg, up: Towers, a: Act)
    requires MoverOk(m, g, th, reg, up) && Ready(m, g, th, reg, up, a) && a.Move?
    requires reg.phase.Descend? || reg.phase.Cut?
    ensures StepUp(m, g, th, reg, up, a)
  {
    hide ListInv, ThreadOk, Noted;
    HeadIsLow(g, th);
    var level := reg.phase.level;
    var reg' := Effect(m, g, th, reg, up, a).1;
    NotedSizes(m, up, reg, level);
    NothingNoted(m, up, reg');
    SameNoted(m, up, reg, reg', level);
    if reg.phase.Descend? {
      if level > 0 { assert LinkOk(up, th.pc.start, level); }
    } else if At(up, th.pc.start, level) == Link(reg.phase.curr, false) {
      PutOk(m, g.nodes, up, th.pc.start, level, Link(reg.phase.succ, false));
      PutGrows(up, th.pc.start, level, Link(reg.phase.succ, false));
      NotedStays(m, up, Put(up, th.pc.start, level, Link(reg.phase.succ, false)), reg', level);
    }
  }

  lemma LinkUp(m: nat, g: Shared, th: Thread, reg: Reg, up: Towers, a: Act)
    requires MoverOk(m, g, th, reg, up) && Ready(m, g, th, reg, up, a) && a.Move?
    requires reg.phase.Store? || reg.phase.Join?
    ensures StepUp(m, g, th, reg, up, a)
  {
    hide ListInv, ThreadOk, Noted;
    var level := reg.phase.level;
    var (_, reg', up') := Effect(m, g, th, reg, up, a);
    assert NotedAt(up, reg, level) by { NotedHere(m, up, reg, level); }
    NotedSizes(m, up, reg, 0);
    NothingNoted(m, up, reg');
    SameNoted(m, up, reg, reg', 0);
    var pred, succ := reg.preds[level - 1], reg.succs[level - 1];
    if reg.phase.Store? {
      PutOk(m, g.nodes, up, reg.node, level, Link(succ, false));
      PutGrows(up, reg.node, level, Link(succ, false));
    } else if At(up, pred, level) == Link(succ, false) {
      PutOk(m, g.nodes, up, pred, level, Link(reg.node, false));
      PutGrows(up, pred, level, Link(reg.node, false));
    }
    NotedStays(m, up, up', reg', 0);
  }

  lemma NotedHere(m: nat, up: Towers, reg: Reg, l: nat)
    requires Noted(m, up, reg, 0) && 1 <= l <= m
    ensures NotedAt(up, reg, l)
  {
  }

  lemma LookUp(m: nat, g: Shared, th: Thread, reg: Reg, up: Towers, a: Act)
    requires MoverOk(m, g, th, reg, up) && Ready(m, g, th, reg, up, a) && a.Move?
    requires reg.phase.Look? || reg.phase.Flag?
    ensures StepUp(m, g, th, reg, up, a)
  {
    hide ListInv, ThreadOk, Noted;
    var (_, reg', up') := Effect(m, g, th, reg, up, a);
    SameNoted(m, up, reg, reg', 0);
    LoadSuccNode(g, th);
    var n, level := th.pc.node, reg.phase.level;
    if reg.phase.Flag? && At(up, n, level) == Link(reg.phase.succ, false) {
      assert LinkOk(up, n, level);
      PutOk(m, g.nodes, up, n, level, Link(reg.phase.succ, true));
      PutGrows(up, n, level, Link(reg.phase.succ, true));
      NotedStays(m, up, up', reg', 0);
    }
  }

  lemma LoadSuccNode(g: Shared, th: Thread)
    requires ListInv(g) && ThreadOk(g, th) && th.pc.LoadSucc?
    ensures th.pc.node in g.nodes && th.pc.node != HEAD && th.pc.node != TAIL && Active(th)
  {
  }

  // How a step on level 0 changes the program counter.
  ghost predicate PcMoves(g: Shared, th: Thread, n: Ptr)
    requires Enabled(g, th, Go(n))
  {
    var (th', g') := Outcome(g, th, Go(n));
    var published := th.pc.Publish? && CasOk(g.nodes, th.pc.pred, th.pc.succ);
    && (th'.pc.Route? ==> th'.pc.start == HEAD)
    && (Helping(th'.pc) ==> Helping(th.pc))
    && (th'.pc.CountAdd? ==> th.pc.Publish? || Helping(th.pc))
    && (th'.pc.LoadSucc? ==> th'.pc.node in g.nodes)
    && (th.pc.Publish? && th'.pc.CountAdd? <==> published)
    && (g'.nodes.Keys == if published then g.nodes.Keys + {n} else g.nodes.Keys)
    && Active(th) && !th'.pc.Idle?
    && (th.pc.Publish? ==> n !in g.nodes && !th'.pc.Returned?)
  }

  lemma LoadMoves(g: Shared, th: Thread, n: Ptr)
    requires Enabled(g, th, Go(n)) && th.pc.Load?
    ensures PcMoves(g, th, n)
  {
    hide CasOk, Counted;
  }

  lemma CasMoves(g: Shared, th: Thread, n: Ptr)
    requires Enabled(g, th, Go(n)) && (th.pc.Splice? || th.pc.Publish? || th.pc.Mark?)
    ensures PcMoves(g, th, n)
  {
    hide AfterLoad, Counted;
  }

  lemma OtherMoves(g: Shared, th: Thread, n: Ptr)
    requires Enabled(g, th, Go(n)) && !th.pc.Load? && !th.pc.Splice? && !th.pc.Publish? && !th.pc.Mark?
    ensures PcMoves(g, th, n)
  {
    hide AfterLoad, CasOk, Counted;
  }

  lemma PcAfterGo(g: Shared, th: Thread, n: Ptr)
    requires Enabled(g, th, Go(n))
    ensures PcMoves(g, th, n)
  {
    hide PcMoves;
    if th.pc.Load? { LoadMoves(g, th, n); }
    else if th.pc.Splice? || th.pc.Publish? || th.pc.Mark? { CasMoves(g, th, n); }
    else { OtherMoves(g, th, n); }
  }

  lemma BelowUp(m: nat, g: Shared, th: Thread, reg: Reg, up: Towers, a: Act)
    requires MoverOk(m, g, th, reg, up) && Ready(m, g, th, reg, up, a) && a.Move? && reg.phase.Below?
    ensures StepUp(m, g, th, reg, up, a)
  {
    hide ListInv, ThreadOk, Noted, Outcome, CasOk;
    var (_, reg', up') := Effect(m, g, th, reg, up, a);
    var (th', g') := Outcome(g, th, Go(a.memory));
    PcAfterGo(g, th, a.memory);
    NotedSizes(m, up, reg, 0);
    NothingNoted(m, up', reg');
    SameNoted(m, up, reg, reg', 0);
    if th.pc.Publish? && CasOk(g.nodes, th.pc.pred, th.pc.succ) {
      forall l | 0 <= l < reg.top ensures Has(up, up'[a.memory][l].next, l + 1) {
        NotedHere(m, up, reg, l + 1);
      }
      AddOk(m, g.nodes, g'.nodes, up, a.memory, up'[a.memory]);
      NotedStays(m, up, up', reg', 0);
    } else {
      assert TowersOk(m, g'.nodes, up);
    }
  }

  lemma MoverUp(m: nat, g: Shared, th: Thread, reg: Reg, up: Towers, a: Act)
    requires MoverOk(m, g, th, reg, up) && Ready(m, g, th, reg, up, a)
    ensures StepUp(m, g, th, reg, up, a)
  {
    hide MoverOk, StepUp, Ready;
    if a.Start? { StartUp(m, g, th, reg, up, a); }
    else if reg.phase.Below? { BelowUp(m, g, th, reg, up, a); }
    else if reg.phase.Walk? { WalkUp(m, g, th, reg, up, a); }
    else if reg.phase.Descend? || reg.phase.Cut? { SearchUp(m, g, th, reg, up, a); }
    else if reg.phase.Store? || reg.phase.Join? { LinkUp(m, g, th, reg, up, a); }
    else { LookUp(m, g, th, reg, up, a); }
  }

  // What a step does to the program counters.
  lemma PcsAfter(s: BottomList.State, t: Tid, b: Action, s': BottomList.State)
    requires BottomList.Next(s, t, b, s')
    ensures s'.threads.Keys == s.threads.Keys && s'.threads[t].pc == Outcome(s.g, s.threads[t], b).0.pc
    ensures s'.g.nodes == Outcome(s.g, s.threads[t], b).1.nodes
    ensures forall u :: u in s.threads && u != t ==> s'.threads[u].pc == s.threads[u].pc
  {
    hide Outcome, Enabled;
  }

  lemma UpKeys(m: nat, nodes: Heap, up: Towers, p: Ptr)
    requires TowersOk(m, nodes, up)
    ensures p in up <==> p in nodes
  {
  }

  lemma TailUnmarked(m: nat, nodes: Heap, up: Towers, level: nat)
    requires TowersOk(m, nodes, up)
    ensures Has(up, TAIL, level) ==> !At(up, TAIL, level).marked
  {
    assert Has(up, TAIL, level) ==> LinkOk(up, TAIL, level);
  }

  // Every step keeps the upper levels usable: a node reached at a level has it.
  lemma UpKept(m: nat, s: State, t: Tid, a: Act, s': State)
    requires Inv(s.base) && UpInv(m, s) && Next(m, s, t, a, s')
    ensures UpInv(m, s') && Grown(s.up, s'.up)
  {
    hide ListInv, ThreadOk, TowersOk, RegOk, Outcome, Enabled, Ready, Effect;
    var g, th, reg := s.base.g, s.base.threads[t], s.regs[t];
    assert ThreadUp(m, s, t);
    assert MoverOk(m, g, th, reg, s.up);
    MoverUp(m, g, th, reg, s.up, a);
    var b := Effect(m, g, th, reg, s.up, a).0;
    PcsAfter(s.base, t, b, s'.base);
    forall u | u in s'.regs ensures ThreadUp(m, s', u) {
      if u != t {
        assert ThreadUp(m, s, u);
        RegStays(m, s.up, s'.up, s.base.threads[u].pc, s.regs[u]);
      }
    }
  }

  lemma UpStart(m: nat, s: State)
    requires Init(m, s)
    ensures UpInv(m, s)
  {
    forall p, l: nat | Has(s.up, p, l) ensures LinkOk(s.up, p, l) {}
  }

  lemma {:induction false} AlwaysUp(m: nat, run: seq<State>, i: nat)
    requires Behavior(m, run) && i < |run|
    ensures UpInv(m, run[i])
  {
    hide UpInv, Next;
    if i == 0 {
      UpStart(m, run[0]);
    } else {
      AlwaysUp(m, run, i - 1);
      BaseInv(m, run, i - 1);
      assert StepAt(m, run, i - 1);
      var t, a :| Next(m, run[i - 1], t, a, run[i]);
      UpKept(m, run[i - 1], t, a, run[i]);
    }
  }

  // ---------------------------------------------------------------------------
  // No operation gets stuck
  // ---------------------------------------------------------------------------

  ghost function BaseAfter(s: BottomList.State, t: Tid, b: Action): BottomList.State
    requires t in s.threads && Enabled(s.g, s.threads[t], b)
  {
    var (th, g) := Outcome(s.g, s.threads[t], b);
    BottomList.State(g.(clock := g.clock + 1), Settle(s.threads, t, th, g.nodes, g.linked))
  }

  // The state after a step.
  ghost function After(m: nat, s: State, t: Tid, a: Act): (s': State)
    requires t in s.base.threads && t in s.regs && Ready(m, s.base.g, s.base.threads[t], s.regs[t], s.up, a)
    requires Enabled(s.base.g, s.base.threads[t], Effect(m, s.base.g, s.base.threads[t], s.regs[t], s.up, a).0)
    ensures Next(m, s, t, a, s')
  {
    var (b, reg, up) := Effect(m, s.base.g, s.base.threads[t], s.regs[t], s.up, a);
    State.State(BaseAfter(s.base, t, b), up, s.regs[t := reg])
  }

  lemma {:induction false} Unused(ptrs: set<Ptr>) returns (n: Ptr)
    ensures n != NULL && forall p :: p in ptrs ==> p < n
  {
    if ptrs == {} {
      n := 1;
    } else {
      var p :| p in ptrs;
      var rest := Unused(ptrs - {p});
      n := if p < rest then rest else p + 1;
      assert forall q :: q in ptrs ==> q == p || q in ptrs - {p};
    }
  }

  lemma BelowReady(g: Shared, th: Thread, n: Ptr)
    requires ListInv(g) && ThreadOk(g, th) && Active(th) && !th.pc.Route? && n !in g.nodes && n != NULL
    ensures Enabled(g, th, Go(n))
  {
    match th.pc
    case Update(node) => assert CellOk(g.nodes, g.cells, node);
    case LoadValue(node) => assert CellOk(g.nodes, g.cells, node);
    case Mark(node, _) => assert CellOk(g.nodes, g.cells, node);
    case _ =>
  }

  lemma PhaseReady(m: nat, g: Shared, th: Thread, reg: Reg, up: Towers, n: Ptr)
    requires MoverOk(m, g, th, reg, up) && Active(th) && n !in g.nodes && n != NULL
    ensures Ready(m, g, th, reg, up, Move(n))
  {
    hide ListInv, ThreadOk, Noted;
    match reg.phase
    case Below =>
      BelowReady(g, th, n);
      NotedSizes(m, up, reg, 0);
    case Descend(level) =>
      HeadIsLow(g, th);
    case Walk(level, curr) =>
      HeadIsLow(g, th);
      NotedSizes(m, up, reg, level);
    case Cut(level, _, _) =>
      HeadIsLow(g, th);
    case Store(level) =>
      NotedHere(m, up, reg, level);
    case Join(level) =>
      NotedHere(m, up, reg, level);
    case Look(level) =>
    case Flag(level, _) =>
  }

  // Whatever the other threads have done, the next step of a running operation is
  // possible: every link it follows is there.
  lemma NeverStuck(m: nat, run: seq<State>, i: nat, t: Tid)
    requires Behavior(m, run) && i < |run| && t in run[i].base.threads && Active(run[i].base.threads[t])
    ensures exists n, s' :: Next(m, run[i], t, Move(n), s')
  {
    hide ListInv, ThreadOk, TowersOk, RegOk, Outcome, Enabled, Ready, Effect, Behavior;
    var s := run[i];
    var g, th := s.base.g, s.base.threads[t];
    BaseInv(m, run, i);
    AlwaysUp(m, run, i);
    assert ThreadUp(m, s, t);
    var n := Unused(g.nodes.Keys);
    PhaseReady(m, g, th, s.regs[t], s.up, n);
    MoverUp(m, g, th, s.regs[t], s.up, Move(n));
    var s' := After(m, s, t, Move(n));
    assert Next(m, s, t, Move(n), s');
  }
}
