/** When the answers are right: as long as no insert overwrites a mark on an upper
  * link of its own node, every search starts at a node that was on the chain since
  * it began.
  */
module TowerClean {
  import opened BottomList
  import opened BottomSteps
  import opened BottomRuns
  import opened BottomLinear
  import BottomReclaim
  import opened Tower

  // The step writes over a mark: `insert` stores its successor into a link of
  // its own node without looking, and a remove has marked that link.
  predicate Clears(s: Tower.State, t: Tid, a: Act) {
    && t in s.regs && a.Move? && s.regs[t].phase.Store?
    && Has(s.up, s.regs[t].node, s.regs[t].phase.level)
    && At(s.up, s.regs[t].node, s.regs[t].phase.level).marked
  }

  ghost predicate MarksStay(up: Towers, up': Towers) {
    forall p, l: nat {:trigger Has(up, p, l)} :: Has(up, p, l) && At(up, p, l).marked ==>
      Has(up', p, l) && At(up', p, l).marked
  }

  ghost predicate Clean(run: seq<Tower.State>) {
    forall i {:trigger CleanAt(run, i)} :: 0 <= i < |run| - 1 ==> CleanAt(run, i)
  }

  ghost predicate CleanAt(run: seq<Tower.State>, i: int) {
    0 <= i < |run| - 1 && MarksStay(run[i].up, run[i + 1].up)
  }

  // No other step removes a mark from an upper link.
  lemma OnlyStoreClears(m: nat, s: Tower.State, t: Tid, a: Act, s': Tower.State)
    requires UpInv(m, s) && Tower.Next(m, s, t, a, s')
    ensures MarksStay(s.up, s'.up) <==> !Clears(s, t, a)
  {
    hide Outcome, RegOk, ThreadUp;
    var g, th, reg := s.base.g, s.base.threads[t], s.regs[t];
    assert a.Move? && reg.phase.Below? && th.pc.Publish? ==> a.memory !in s.up;
    if Clears(s, t, a) {
      assert Has(s.up, reg.node, reg.phase.level) && !At(s'.up, reg.node, reg.phase.level).marked;
    }
  }

  // ---------------------------------------------------------------------------
  // The invariant of clean runs
  // ---------------------------------------------------------------------------

  // Every link of `p` above `level` is marked.
  ghost predicate AllMarked(up: Towers, p: Ptr, level: nat) {
    p in up && forall l {:trigger up[p][l]} :: level <= l < |up[p]| ==> up[p][l].marked
  }

  // A node marked on level 0 is marked on all its levels.
  ghost predicate Capped(nodes: Heap, up: Towers) {
    forall p {:trigger AllMarked(up, p, 0)} :: p in nodes && nodes[p].marked ==> AllMarked(up, p, 0)
  }

  // The node a remove is about to mark, and the level down to which it is marked.
  function Doomed(pc: Pc): Ptr {
    match pc
    case LoadSucc(n) => n
    case Mark(n, _) => n
    case Recheck(n) => n
    case _ => NULL
  }

  function Depth(phase: Phase): nat {
    match phase
    case Look(level) => level
    case Flag(level, _) => level
    case _ => 0
  }

  ghost predicate CleanThread(up: Towers, th: Thread, reg: Reg) {
    && (!th.pc.Idle? ==> !th.stale)
    && (th.pc.Route? ==> th.pc.start in th.reached)
    && (Doomed(th.pc) != NULL ==> AllMarked(up, Doomed(th.pc), Depth(reg.phase)))
  }

  ghost predicate CleanInv(s: Tower.State) {
    && Capped(s.base.g.nodes, s.up) && s.base.g.rushed == {}
    && s.regs.Keys == s.base.threads.Keys
    && forall t {:trigger s.regs[t]} :: t in s.regs ==> CleanThread(s.up, s.base.threads[t], s.regs[t])
  }

  lemma MarkedStays(up: Towers, up': Towers, p: Ptr, level: nat)
    requires AllMarked(up, p, level) && Grown(up, up') && MarksStay(up, up')
    ensures AllMarked(up', p, level)
  {
    forall l | level <= l < |up'[p]| ensures up'[p][l].marked {
      assert Has(up, p, l + 1) && At(up, p, l + 1).marked;
    }
  }

  // A link that is not marked belongs to a node on the chain.
  lemma UnmarkedIsLinked(g: Shared, up: Towers, p: Ptr, level: nat)
    requires ListInv(g) && Capped(g.nodes, up) && p in g.nodes && Has(up, p, level) && !At(up, p, level).marked
    ensures p in g.linked
  {
    assert g.nodes[p].marked ==> AllMarked(up, p, 0);
  }

  lemma ChainIsReached(g: Shared, th: Thread)
    requires ListInv(g) && ThreadOk(g, th) && Active(th)
    ensures g.linked <= th.reached && HEAD in g.linked
  {
  }

  ghost predicate MoverClean(m: nat, g: Shared, th: Thread, reg: Reg, up: Towers, a: Act)
    requires Ready(m, g, th, reg, up, a)
  {
    var (b, reg', up') := Effect(m, g, th, reg, up, a);
    && Enabled(g, th, b)
    && var (th', g') := Outcome(g, th, b);
    CleanThread(up', th', reg') && Capped(g'.nodes, up') && (g.rushed == {} ==> g'.rushed == {})
  }

  ghost predicate Sound(m: nat, g: Shared, th: Thread, reg: Reg, up: Towers, a: Act) {
    && MoverOk(m, g, th, reg, up) && Ready(m, g, th, reg, up, a) && StepUp(m, g, th, reg, up, a)
    && Capped(g.nodes, up) && CleanThread(up, th, reg)
    && MarksStay(up, Effect(m, g, th, reg, up, a).2)
  }

  lemma CappedStays(nodes: Heap, up: Towers, up': Towers)
    requires Capped(nodes, up) && Grown(up, up') && MarksStay(up, up')
    ensures Capped(nodes, up')
  {
    forall p | p in nodes && nodes[p].marked ensures AllMarked(up', p, 0) {
      assert AllMarked(up, p, 0);
      MarkedStays(up, up', p, 0);
    }
  }

  // Steps on the upper levels.
  lemma UpperClean(m: nat, g: Shared, th: Thread, reg: Reg, up: Towers, a: Act)
    requires Sound(m, g, th, reg, up, a) && a.Move? && !reg.phase.Below?
    ensures MoverClean(m, g, th, reg, up, a)
  {
    hide ListInv, ThreadOk, TowersOk, Noted, Capped, AllMarked, MarksStay;
    var up' := Effect(m, g, th, reg, up, a).2;
    CappedStays(g.nodes, up, up');
    ChainIsReached(g, th);
    if reg.phase.Walk? && !At(up, reg.phase.curr, reg.phase.level).marked {
      UnmarkedIsLinked(g, up, reg.phase.curr, reg.phase.level);
    }
    if th.pc.LoadSucc? {
      LoadSuccNode(g, th);
      NoNull(g);
      LookClean(up, up', th.pc.node, reg.phase);
    }
  }

  lemma NoNull(g: Shared)
    requires ListInv(g)
    ensures NULL !in g.nodes
  {
  }

  lemma LookClean(up: Towers, up': Towers, n: Ptr, phase: Phase)
    requires AllMarked(up, n, Depth(phase)) && Grown(up, up') && MarksStay(up, up')
    ensures AllMarked(up', n, Depth(phase))
    ensures phase.Look? && Has(up, n, phase.level) && At(up, n, phase.level).marked ==>
              AllMarked(up', n, phase.level - 1)
  {
    MarkedStays(up, up', n, Depth(phase));
    if phase.Look? && Has(up, n, phase.level) && At(up, n, phase.level).marked {
      assert AllMarked(up, n, phase.level - 1);
      MarkedStays(up, up', n, phase.level - 1);
    }
  }

  lemma StartClean(m: nat, g: Shared, th: Thread, reg: Reg, up: Towers, a: Act)
    requires Sound(m, g, th, reg, up, a) && a.Start?
    ensures MoverClean(m, g, th, reg, up, a)
  {
    hide ThreadOk, TowersOk, Noted, Capped, AllMarked, MarksStay;
  }

  // What a step on level 0 does to the node about to be removed.
  ghost predicate DoomMoves(g: Shared, th: Thread, n: Ptr)
    requires Enabled(g, th, Go(n))
  {
    var (th', g') := Outcome(g, th, Go(n));
    && (th'.pc.Route? ==> th'.pc.start == HEAD && HEAD in th'.reached)
    && th'.stale == th.stale && !th.pc.Idle?
    && (Doomed(th'.pc) != NULL ==> th'.pc.LoadSucc? || Doomed(th'.pc) == Doomed(th.pc))
    && (forall p :: p in g'.nodes && g'.nodes[p].marked ==>
          (p in g.nodes && g.nodes[p].marked) || (p == Doomed(th.pc) != NULL && !th.pc.LoadSucc?))
    && (!th.stale && g.rushed == {} ==> g'.rushed == {})
    && (th'.pc.LoadSucc? ==> th'.pc.node in g.nodes)
    && (th.pc.Publish? ==> Doomed(th'.pc) == NULL)
  }

  lemma LoadDooms(g: Shared, th: Thread, n: Ptr)
    requires Enabled(g, th, Go(n)) && th.pc.Load?
    ensures DoomMoves(g, th, n)
  {
    hide CasOk, Counted;
  }

  lemma CasDooms(g: Shared, th: Thread, n: Ptr)
    requires Enabled(g, th, Go(n)) && (th.pc.Splice? || th.pc.Publish? || th.pc.Mark?)
    requires HEAD in g.linked && g.linked <= th.reached && NULL !in g.nodes
    ensures DoomMoves(g, th, n)
  {
    hide AfterLoad, Counted;
  }

  lemma OtherDooms(g: Shared, th: Thread, n: Ptr)
    requires Enabled(g, th, Go(n)) && !th.pc.Load? && !th.pc.Splice? && !th.pc.Publish? && !th.pc.Mark?
    ensures DoomMoves(g, th, n)
  {
    hide AfterLoad, CasOk, Counted;
  }

  lemma DoomedAfter(g: Shared, th: Thread, n: Ptr)
    requires Enabled(g, th, Go(n)) && ListInv(g) && ThreadOk(g, th)
    ensures DoomMoves(g, th, n)
  {
    hide DoomMoves, ListInv, ThreadOk;
    ChainIsReached(g, th);
    NoNull(g);
    if th.pc.Load? { LoadDooms(g, th, n); }
    else if th.pc.Splice? || th.pc.Publish? || th.pc.Mark? { CasDooms(g, th, n); }
    else { OtherDooms(g, th, n); }
  }

  lemma BelowClean(m: nat, g: Shared, th: Thread, reg: Reg, up: Towers, a: Act)
    requires Sound(m, g, th, reg, up, a) && a.Move? && reg.phase.Below?
    ensures MoverClean(m, g, th, reg, up, a)
  {
    hide ListInv, ThreadOk, Noted, AllMarked, MarksStay, Outcome;
    var (_, reg', up') := Effect(m, g, th, reg, up, a);
    var (th', g') := Outcome(g, th, Go(a.memory));
    DoomedAfter(g, th, a.memory);
    if Doomed(th.pc) != NULL { MarkedStays(up, up', Doomed(th.pc), 0); }
    CappedStays(g.nodes, up, up');
    if th'.pc.LoadSucc? { NothingAbove(up', th'.pc.node); }
    forall p | p in g'.nodes && g'.nodes[p].marked ensures AllMarked(up', p, 0) {}
  }

  lemma NothingAbove(up: Towers, p: Ptr)
    requires p in up
    ensures AllMarked(up, p, |up[p]|)
  {
  }

  lemma LooksClean(up: Towers, th: Thread, reg: Reg, nodes: Heap, linked: set<Ptr>)
    requires CleanThread(up, th, reg)
    ensures CleanThread(up, Observe(th, nodes, linked), reg)
  {
    hide AllMarked;
  }

  lemma OtherClean(up: Towers, up': Towers, th: Thread, reg: Reg, nodes: Heap, linked: set<Ptr>)
    requires CleanThread(up, th, reg) && Grown(up, up') && MarksStay(up, up')
    ensures CleanThread(up', Observe(th, nodes, linked), reg)
  {
    if Doomed(th.pc) != NULL { MarkedStays(up, up', Doomed(th.pc), Depth(reg.phase)); }
    LooksClean(up', th, reg, nodes, linked);
  }

  // The threads after a step, history variables included.
  lemma ThreadsAfter(s: BottomList.State, t: Tid, b: Action, s': BottomList.State)
    requires BottomList.Next(s, t, b, s')
    ensures var (th, g) := Outcome(s.g, s.threads[t], b);
            && s'.threads.Keys == s.threads.Keys && s'.threads[t] == Observe(th, g.nodes, g.linked)
            && s'.g.nodes == g.nodes && s'.g.rushed == g.rushed
            && forall u :: u in s.threads && u != t ==> s'.threads[u] == Observe(s.threads[u], g.nodes, g.linked)
  {
    hide Outcome, Enabled, Observe;
  }

  lemma Observed(th: Thread, g: Shared)
    ensures var th' := Observe(th, g.nodes, g.linked); th'.key == th.key && th'.pc == th.pc && th'.begin == th.begin
  {
  }

  lemma CleanKept(m: nat, s: Tower.State, t: Tid, a: Act, s': Tower.State)
    requires Inv(s.base) && UpInv(m, s) && CleanInv(s) && Tower.Next(m, s, t, a, s') && MarksStay(s.up, s'.up)
    ensures CleanInv(s')
  {
    hide ListInv, ThreadOk, TowersOk, RegOk, Outcome, Enabled, Ready, Effect, Capped, CleanThread, MarksStay, Observe;
    var g, th, reg, up := s.base.g, s.base.threads[t], s.regs[t], s.up;
    assert ThreadUp(m, s, t);
    assert MoverOk(m, g, th, reg, up);
    MoverUp(m, g, th, reg, up, a);
    assert Sound(m, g, th, reg, up, a);
    if a.Start? {
      StartClean(m, g, th, reg, up, a);
    } else if reg.phase.Below? {
      BelowClean(m, g, th, reg, up, a);
    } else {
      UpperClean(m, g, th, reg, up, a);
    }
    var (b, reg', up') := Effect(m, g, th, reg, up, a);
    var (th', g') := Outcome(g, th, b);
    ThreadsAfter(s.base, t, b, s'.base);
    LooksClean(up', th', reg', g'.nodes, g'.linked);
    forall u | u in s'.regs ensures CleanThread(s'.up, s'.base.threads[u], s'.regs[u]) {
      if u != t { OtherClean(up, up', s.base.threads[u], s.regs[u], g'.nodes, g'.linked); }
    }
  }

  lemma CleanStart(m: nat, s: Tower.State)
    requires Tower.Init(m, s)
    ensures CleanInv(s)
  {
  }

  lemma {:induction false} AlwaysClean(m: nat, run: seq<Tower.State>, i: nat)
    requires Tower.Behavior(m, run) && Clean(run) && i < |run|
    ensures CleanInv(run[i])
  {
    hide UpInv, Inv, CleanInv, Tower.Next, MarksStay;
    if i == 0 {
      CleanStart(m, run[0]);
    } else {
      AlwaysClean(m, run, i - 1);
      BaseInv(m, run, i - 1);
      AlwaysUp(m, run, i - 1);
      assert Tower.StepAt(m, run, i - 1) && CleanAt(run, i - 1);
      var t, a :| Tower.Next(m, run[i - 1], t, a, run[i]);
      CleanKept(m, run[i - 1], t, a, run[i]);
    }
  }

  // ---------------------------------------------------------------------------
  // What clean runs promise
  // ---------------------------------------------------------------------------

  // The answer thread `t` has given in state `i` is the one the map would give.
  ghost predicate RightAt(run: seq<Tower.State>, i: int, t: Tid) {
    0 <= i < |run| && t in run[i].base.threads && run[i].base.threads[t].pc.Returned? ==>
      Right(Bases(run), i, t, run[i].base.threads[t])
  }

  ghost predicate AllRight(run: seq<Tower.State>) {
    forall i, t {:trigger RightAt(run, i, t)} :: RightAt(run, i, t)
  }

  // Every answer in a clean run is right.
  lemma CleanRunsAreRight(m: nat, run: seq<Tower.State>)
    requires Tower.Behavior(m, run) && Clean(run)
    ensures AllRight(run)
  {
    hide BottomList.Behavior, Tower.Behavior, Clean, Right, CleanThread;
    BaseRun(m, run);
    forall i, t ensures RightAt(run, i, t) {
      if 0 <= i < |run| && t in run[i].base.threads && run[i].base.threads[t].pc.Returned? {
        AlwaysClean(m, run, i);
        RightUnlessStale(Bases(run), i, t);
        NotStale(run[i].up, run[i].base.threads[t], run[i].regs[t]);
      }
    }
  }

  lemma NotStale(up: Towers, th: Thread, reg: Reg)
    requires CleanThread(up, th, reg) && !th.pc.Idle?
    ensures !th.stale
  {
  }

  // In a clean run a node that was handed over is unreachable on level 0, and
  // every pointer in an operation's registers was on the chain since it began.
  lemma CleanRunsReclaim(m: nat, run: seq<Tower.State>, i: nat)
    requires Tower.Behavior(m, run) && Clean(run) && i < |run|
    ensures forall v :: v in run[i].base.g.retired ==> !Reachable(run[i].base.g.nodes, v)
    ensures forall t, p :: t in run[i].base.threads && p in BottomReclaim.Pointers(run[i].base.threads[t].pc) ==>
              WasLinked(Bases(run), run[i].base.threads[t].begin, i, p)
  {
    hide BottomList.Behavior, Tower.Behavior, Clean, CleanThread, WasLinked, Reachable, Shape, Deeds;
    hide ThreadOk, BottomReclaim.Pointers;
    BaseRun(m, run);
    var bases := Bases(run);
    var s := bases[i];
    AlwaysInv(bases, i);
    AlwaysClean(m, run, i);
    ClockIsIndex(bases, i);
    forall v | v in s.g.retired ensures !Reachable(s.g.nodes, v) {
      ReachableIffLinked(bases, i, v);
      var k :| 0 <= k < |s.g.retired| && s.g.retired[k] == v;
    }
    forall t, p | t in s.threads && p in BottomReclaim.Pointers(s.threads[t].pc)
      ensures WasLinked(bases, s.threads[t].begin, i, p)
    {
      BottomReclaim.HasRegisters(s.threads[t].pc, p);
      AlwaysWitnessed(bases, i, t);
      NotStale(run[i].up, s.threads[t], run[i].regs[t]);
      BottomReclaim.RegistersReached(s.g, s.threads[t], p);
    }
  }

  // ---------------------------------------------------------------------------
  // When every run is clean
  // ---------------------------------------------------------------------------

  ghost predicate NoneMarked(up: Towers, p: Ptr) {
    p in up ==> forall l {:trigger up[p][l]} :: 0 <= l < |up[p]| ==> !up[p][l].marked
  }

  // Alone, an insert that links its upper levels finds them unmarked.
  ghost predicate SoloOk(up: Towers, pc: Pc, reg: Reg) {
    reg.phase.Store? || reg.phase.Join? || Helping(pc) ==> NoneMarked(up, reg.node)
  }

  ghost predicate Solo(s: Tower.State, t: Tid) {
    t in s.regs && t in s.base.threads && SoloOk(s.up, s.base.threads[t].pc, s.regs[t])
  }

  lemma PutUnmarked(up: Towers, n: Ptr, p: Ptr, level: nat, link: Link)
    requires NoneMarked(up, n) && Has(up, p, level) && !link.marked
    ensures NoneMarked(Put(up, p, level, link), n)
  {
  }

  lemma NewUnmarked(g: Shared, th: Thread, reg: Reg, up: Towers, n: Ptr)
    requires reg.top <= |reg.succs|
    ensures th.pc.Publish? && CasOk(g.nodes, th.pc.pred, th.pc.succ) ==> NoneMarked(AfterPublish(g, th, reg, up, n), n)
  {
  }

  lemma UpperPc(g: Shared, th: Thread, b: Action)
    requires Enabled(g, th, b) && !b.Go?
    ensures Helping(Outcome(g, th, b).0.pc) ==> !b.Begin? && (Helping(th.pc) || b.Assist?)
  {
  }

  ghost predicate SoloAfter(m: nat, g: Shared, th: Thread, reg: Reg, up: Towers, a: Act)
    requires Ready(m, g, th, reg, up, a)
  {
    var (b, reg', up') := Effect(m, g, th, reg, up, a);
    Enabled(g, th, b) ==> SoloOk(up', Outcome(g, th, b).0.pc, reg')
  }

  lemma SoloBelow(m: nat, g: Shared, th: Thread, reg: Reg, up: Towers, a: Act)
    requires MoverOk(m, g, th, reg, up) && Ready(m, g, th, reg, up, a) && SoloOk(up, th.pc, reg)
    requires a.Move? && reg.phase.Below?
    ensures SoloAfter(m, g, th, reg, up, a)
  {
    hide ListInv, ThreadOk, TowersOk, NoneMarked, Outcome, Enabled, Noted;
    PcAfterGo(g, th, a.memory);
    NewUnmarked(g, th, reg, up, a.memory);
  }

  lemma SoloAbove(m: nat, g: Shared, th: Thread, reg: Reg, up: Towers, a: Act)
    requires MoverOk(m, g, th, reg, up) && Ready(m, g, th, reg, up, a) && SoloOk(up, th.pc, reg)
    requires a.Start? || !reg.phase.Below?
    ensures SoloAfter(m, g, th, reg, up, a)
  {
    hide ListInv, ThreadOk, TowersOk, NoneMarked, Outcome, Noted, Put;
    var b := Effect(m, g, th, reg, up, a).0;
    if Enabled(g, th, b) { UpperPc(g, th, b); }
    if a.Move? {
      match reg.phase
      case Cut(level, curr, succ) =>
        if Helping(th.pc) { PutUnmarked(up, reg.node, th.pc.start, level, Link(succ, false)); }
      case Store(level) => PutUnmarked(up, reg.node, reg.node, level, Link(reg.succs[level - 1], false));
      case Join(level) => PutUnmarked(up, reg.node, reg.preds[level - 1], level, Link(reg.node, false));
      case _ =>
    }
  }

  lemma SoloKept(m: nat, s: Tower.State, t: Tid, a: Act, s': Tower.State)
    requires Inv(s.base) && UpInv(m, s) && Solo(s, t) && Tower.Next(m, s, t, a, s')
    ensures Solo(s', t)
  {
    hide ListInv, ThreadOk, TowersOk, RegOk, SoloOk, Outcome, Enabled, Ready, Effect;
    var g, th, reg, up := s.base.g, s.base.threads[t], s.regs[t], s.up;
    assert ThreadUp(m, s, t);
    assert MoverOk(m, g, th, reg, up);
    if a.Start? || !reg.phase.Below? {
      SoloAbove(m, g, th, reg, up, a);
    } else {
      SoloBelow(m, g, th, reg, up, a);
    }
    PcsAfter(s.base, t, Effect(m, g, th, reg, up, a).0, s'.base);
  }

  lemma SoloStart(m: nat, s: Tower.State, t: Tid)
    requires Tower.Init(m, s) && t in s.base.threads
    ensures Solo(s, t)
  {
  }

  lemma {:induction false} AlwaysSolo(m: nat, run: seq<Tower.State>, i: nat, t: Tid)
    requires Tower.Behavior(m, run) && i < |run| && run[0].base.threads.Keys == {t}
    ensures run[i].base.threads.Keys == {t} && Solo(run[i], t)
  {
    hide UpInv, Inv, Solo, Ready, Effect;
    if i == 0 {
      SoloStart(m, run[0], t);
    } else {
      AlwaysSolo(m, run, i - 1, t);
      BaseInv(m, run, i - 1);
      AlwaysUp(m, run, i - 1);
      assert Tower.StepAt(m, run, i - 1);
      var u, a :| Tower.Next(m, run[i - 1], u, a, run[i]);
      SoloKept(m, run[i - 1], t, a, run[i]);
    }
  }

  // With one level, or one thread, no mark is ever written over.
  lemma FlatOrAloneIsClean(m: nat, run: seq<Tower.State>)
    requires Tower.Behavior(m, run) && (m == 0 || |run[0].base.threads| <= 1)
    ensures Clean(run)
  {
    hide Inv, TowersOk, Ready, Effect, Noted;
    forall i | 0 <= i < |run| - 1 ensures CleanAt(run, i) {
      AlwaysUp(m, run, i);
      assert Tower.StepAt(m, run, i);
      var t, a :| Tower.Next(m, run[i], t, a, run[i + 1]);
      assert ThreadUp(m, run[i], t);
      if m > 0 { AloneFindsNoMark(m, run, i, t); }
      OnlyStoreClears(m, run[i], t, a, run[i + 1]);
    }
  }

  lemma AloneFindsNoMark(m: nat, run: seq<Tower.State>, i: nat, t: Tid)
    requires Tower.Behavior(m, run) && i < |run| && |run[0].base.threads| <= 1 && t in run[i].base.threads
    ensures Solo(run[i], t)
  {
    hide Tower.Behavior, Solo;
    BaseRun(m, run);
    ClockIsIndex(Bases(run), i);
    OnlyOne(run[0].base.threads.Keys, t);
    AlwaysSolo(m, run, i, t);
  }

  lemma OnlyOne<T>(ts: set<T>, t: T)
    requires |ts| <= 1 && t in ts
    ensures ts == {t}
  {
    assert |ts - {t}| == 0;
  }
}
