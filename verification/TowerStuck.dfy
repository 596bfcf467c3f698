/** Operations that never return: after a race of an insert with a remove of its key,
  * a dead node stays linked on level 1, and no insert of a larger key returns ever
  * again, whatever any thread does.
  */
module TowerStuck {
  import opened Common
  import opened BottomList
  import opened BottomSteps
  import opened BottomCalls
  import opened Tower
  import opened TowerClean
  import opened TowerFilm
  import opened TowerStory

  // ---------------------------------------------------------------------------
  // The curse
  // ---------------------------------------------------------------------------

  // On level 1 only the dead node leads past `x`.
  ghost predicate Under(nodes: Heap, up: Towers, x: real, p: Ptr) {
    Has(up, p, 1) && p != OLD && p != TAIL ==>
      At(up, p, 1).next in nodes && nodes[At(up, p, 1).next].key <= x
  }

  ghost predicate CursedList(nodes: Heap, up: Towers, x: real) {
    && OLD in nodes && nodes[OLD] == Node(x, TAIL, true)
    && TAIL in nodes && nodes[TAIL].key == POS_INF > x && !nodes[TAIL].marked
    && (forall p :: p in nodes && p != TAIL ==> nodes[p].key <= x)
    && Has(up, OLD, 1) && At(up, OLD, 1) == Link(TAIL, false)
    && forall p {:trigger Under(nodes, up, x, p)} :: Under(nodes, up, x, p)
  }

  predicate Low(nodes: Heap, x: real, p: Ptr) { p in nodes && nodes[p].key <= x }

  // Has the search passed level 1?
  predicate Passed(phase: Phase) {
    match phase
    case Descend(l) => l == 0
    case Walk(_, _) => false
    case Cut(_, _, _) => false
    case _ => true
  }

  // The search on level 1, whatever it is for.
  predicate OnLevelOne(nodes: Heap, x: real, start: Ptr, phase: Phase) {
    match phase
    case Walk(l, curr) => l == 1 ==> Low(nodes, x, curr) || (start == OLD && curr == TAIL)
    case Cut(l, curr, succ) => l == 1 ==> curr != OLD && curr != TAIL && Low(nodes, x, succ)
    case _ => true
  }

  // An operation on a key up to `x`: what it has noted on level 1 is not beyond `x`.
  predicate LowThread(nodes: Heap, x: real, reg: Reg) {
    Passed(reg.phase) ==> reg.preds != [] && reg.succs != [] && reg.preds[0] != OLD && Low(nodes, x, reg.succs[0])
  }

  // An operation on a key beyond `x` goes down through the dead node, and an insert stays there.
  predicate HighThread(pc: Pc, phase: Phase) {
    match pc
    case Idle => true
    case Returned(goal, _) => !goal.Insert?
    case Route(goal, start) => (goal.Insert? || goal.Remove? || goal.Get?) && (Passed(phase) ==> start == OLD)
    case Load(goal, pred, curr) => (goal.Insert? || goal.Remove? || goal.Get?) && pred == OLD && curr == TAIL
    case Publish(pred, _) => pred == OLD
    case _ => false
  }

  predicate CursedThread(nodes: Heap, x: real, key: real, pc: Pc, reg: Reg) {
    && (if key > x then HighThread(pc, reg.phase) else pc.Idle? || pc.Returned? || LowThread(nodes, x, reg))
    && (pc.Route? ==> OnLevelOne(nodes, x, pc.start, reg.phase))
    && Doomed(pc) != OLD
    && ((pc.CountAdd? && !reg.phase.Below?) || Helping(pc) ==> reg.node != OLD)
  }

  ghost predicate Cursed(s: Tower.State, x: real) {
    && CursedList(s.base.g.nodes, s.up, x) && s.regs.Keys == s.base.threads.Keys
    && forall t {:trigger s.regs[t]} :: t in s.regs ==>
         CursedThread(s.base.g.nodes, x, s.base.threads[t].key, s.base.threads[t].pc, s.regs[t])
  }

  // ---------------------------------------------------------------------------
  // Every step of every thread keeps it
  // ---------------------------------------------------------------------------

  ghost predicate CurseStays(m: nat, g: Shared, th: Thread, reg: Reg, up: Towers, a: Act, x: real)
    requires Ready(m, g, th, reg, up, a)
  {
    var (b, reg', up') := Effect(m, g, th, reg, up, a);
    && Enabled(g, th, b)
    && var (th', g') := Outcome(g, th, b);
    CursedList(g'.nodes, up', x) && CursedThread(g'.nodes, x, th'.key, th'.pc, reg')
  }

  ghost predicate Moving(m: nat, g: Shared, th: Thread, reg: Reg, up: Towers, a: Act, x: real) {
    && m >= 1 && MoverOk(m, g, th, reg, up) && Ready(m, g, th, reg, up, a) && StepUp(m, g, th, reg, up, a)
    && CursedList(g.nodes, up, x) && CursedThread(g.nodes, x, th.key, th.pc, reg)
  }

  // A link of level 1 that is written leads to a node up to `x`.
  lemma PutStays(nodes: Heap, up: Towers, x: real, p: Ptr, level: nat, link: Link)
    requires CursedList(nodes, up, x) && Has(up, p, level) && p != TAIL
    requires level == 1 ==> p != OLD && Low(nodes, x, link.next)
    ensures CursedList(nodes, Put(up, p, level, link), x)
  {
    var up' := Put(up, p, level, link);
    forall q ensures Under(nodes, up', x, q) { assert Under(nodes, up, x, q); }
  }

  lemma StartCurse(m: nat, g: Shared, th: Thread, reg: Reg, up: Towers, a: Act, x: real)
    requires Moving(m, g, th, reg, up, a, x) && a.Start?
    ensures CurseStays(m, g, th, reg, up, a, x)
  {
    hide ListInv, ThreadOk, TowersOk, RegOk, CursedList;
  }

  lemma DescendCurse(m: nat, g: Shared, th: Thread, reg: Reg, up: Towers, a: Act, x: real)
    requires Moving(m, g, th, reg, up, a, x) && a.Move? && reg.phase.Descend?
    ensures CurseStays(m, g, th, reg, up, a, x)
  {
    hide ListInv, ThreadOk, TowersOk, Noted;
    HeadIsLow(g, th);
    assert Under(g.nodes, up, x, th.pc.start);
  }

  lemma WalkCurse(m: nat, g: Shared, th: Thread, reg: Reg, up: Towers, a: Act, x: real)
    requires Moving(m, g, th, reg, up, a, x) && a.Move? && reg.phase.Walk?
    ensures CurseStays(m, g, th, reg, up, a, x)
  {
    hide ListInv, ThreadOk, TowersOk, RegOk, OwnOk;
    HeadIsLow(g, th);
    TailUnmarked(m, g.nodes, up, reg.phase.level);
    assert Under(g.nodes, up, x, reg.phase.curr);
  }

  lemma CutCurse(m: nat, g: Shared, th: Thread, reg: Reg, up: Towers, a: Act, x: real)
    requires Moving(m, g, th, reg, up, a, x) && a.Move? && reg.phase.Cut?
    ensures CurseStays(m, g, th, reg, up, a, x)
  {
    hide ListInv, ThreadOk, TowersOk, Noted, Put, CursedList;
    HeadIsLow(g, th);
    DeadLink(g.nodes, up, x);
    var Cut(level, curr, succ) := reg.phase;
    if At(up, th.pc.start, level) == Link(curr, false) {
      PutStays(g.nodes, up, x, th.pc.start, level, Link(succ, false));
    }
  }

  lemma DeadLink(nodes: Heap, up: Towers, x: real)
    requires CursedList(nodes, up, x)
    ensures Has(up, OLD, 1) && At(up, OLD, 1) == Link(TAIL, false) && OLD in nodes && nodes[OLD].key == x
  {
  }

  lemma LinkCurse(m: nat, g: Shared, th: Thread, reg: Reg, up: Towers, a: Act, x: real)
    requires Moving(m, g, th, reg, up, a, x) && a.Move? && (reg.phase.Store? || reg.phase.Join?)
    ensures CurseStays(m, g, th, reg, up, a, x)
  {
    hide ListInv, ThreadOk, TowersOk, Noted, Put, CursedList;
    assert NotedAt(up, reg, reg.phase.level) by { NotedHere(m, up, reg, reg.phase.level); }
    var level := reg.phase.level;
    if reg.phase.Store? {
      PutStays(g.nodes, up, x, reg.node, level, Link(reg.succs[level - 1], false));
    } else if At(up, reg.preds[level - 1], level) == Link(reg.succs[level - 1], false) {
      AllLow(g.nodes, up, x, reg.node);
      UpKeys(m, g.nodes, up, reg.node);
      PutStays(g.nodes, up, x, reg.preds[level - 1], level, Link(reg.node, false));
    }
  }

  lemma AllLow(nodes: Heap, up: Towers, x: real, p: Ptr)
    requires CursedList(nodes, up, x) && p != TAIL
    ensures p in nodes ==> Low(nodes, x, p)
  {
  }

  lemma LookCurse(m: nat, g: Shared, th: Thread, reg: Reg, up: Towers, a: Act, x: real)
    requires Moving(m, g, th, reg, up, a, x) && a.Move? && (reg.phase.Look? || reg.phase.Flag?)
    ensures CurseStays(m, g, th, reg, up, a, x)
  {
    hide ListInv, ThreadOk, TowersOk, Noted, Put;
    LoadSuccNode(g, th);
    assert Under(g.nodes, up, x, th.pc.node);
    if reg.phase.Flag? && At(up, th.pc.node, reg.phase.level) == Link(reg.phase.succ, false) {
      PutStays(g.nodes, up, x, th.pc.node, reg.phase.level, Link(reg.phase.succ, true));
    }
  }

  // What level 0 may do: marked nodes are frozen, keys stay, and new nodes are not beyond `x`.
  lemma NodesStay(g: Shared, g': Shared, up: Towers, x: real)
    requires CursedList(g.nodes, up, x) && Rely(g.nodes, g.linked, g'.nodes, g'.linked) && ListInv(g')
    requires forall p :: p in g'.nodes && p !in g.nodes ==> g'.nodes[p].key <= x
    ensures CursedList(g'.nodes, up, x)
  {
    forall p ensures Under(g'.nodes, up, x, p) { assert Under(g.nodes, up, x, p); }
  }

  lemma TowerStays(nodes: Heap, up: Towers, x: real, n: Ptr, tower: seq<Link>)
    requires CursedList(nodes, up, x) && n !in up && n != OLD
    requires tower != [] ==> Low(nodes, x, tower[0].next)
    ensures CursedList(nodes, up[n := tower], x)
  {
    var up' := up[n := tower];
    forall p ensures Under(nodes, up', x, p) { assert Under(nodes, up, x, p); }
  }

  // How the program counter moves on level 0.
  ghost predicate PcCurse(m: nat, g: Shared, th: Thread, reg: Reg, up: Towers, n: Ptr, x: real)
    requires Enabled(g, th, Go(n))
  {
    var (th', g') := Outcome(g, th, Go(n));
    var reg' := AfterGo(m, up, reg, th.pc, th'.pc, n);
    && th'.key == th.key && CursedThread(g.nodes, x, th'.key, th'.pc, reg')
    && (forall p :: p in g'.nodes && p !in g.nodes ==> th.pc.Publish? && p == n && g'.nodes[p].key == th.key <= x)
    && (th.pc.Publish? && CasOk(g.nodes, th.pc.pred, th.pc.succ) ==> th.key <= x)
  }

  lemma LoadCurse(m: nat, g: Shared, th: Thread, reg: Reg, up: Towers, n: Ptr, x: real)
    requires m >= 1 && Enabled(g, th, Go(n)) && reg.phase.Below? && CursedThread(g.nodes, x, th.key, th.pc, reg)
    requires CursedList(g.nodes, up, x) && th.pc.Load? && th.key < POS_INF
    ensures PcCurse(m, g, th, reg, up, n, x)
  {
    hide CasOk, Counted;
  }

  lemma CasCurse(m: nat, g: Shared, th: Thread, reg: Reg, up: Towers, n: Ptr, x: real)
    requires m >= 1 && Enabled(g, th, Go(n)) && reg.phase.Below? && CursedThread(g.nodes, x, th.key, th.pc, reg)
    requires CursedList(g.nodes, up, x) && (th.pc.Splice? || th.pc.Publish? || th.pc.Mark?)
    ensures PcCurse(m, g, th, reg, up, n, x)
  {
    hide AfterLoad, Counted;
  }

  lemma OtherCurse(m: nat, g: Shared, th: Thread, reg: Reg, up: Towers, n: Ptr, x: real)
    requires m >= 1 && Enabled(g, th, Go(n)) && reg.phase.Below? && CursedThread(g.nodes, x, th.key, th.pc, reg)
    requires CursedList(g.nodes, up, x)
    requires !th.pc.Load? && !th.pc.Splice? && !th.pc.Publish? && !th.pc.Mark?
    ensures PcCurse(m, g, th, reg, up, n, x)
  {
    hide AfterLoad, CasOk, Counted;
  }

  lemma KeyBelow(g: Shared, th: Thread)
    requires ThreadOk(g, th) && Active(th)
    ensures th.key < POS_INF
  {
  }

  lemma GoCurse(m: nat, g: Shared, th: Thread, reg: Reg, up: Towers, n: Ptr, x: real)
    requires m >= 1 && Enabled(g, th, Go(n)) && reg.phase.Below? && CursedThread(g.nodes, x, th.key, th.pc, reg)
    requires CursedList(g.nodes, up, x) && ThreadOk(g, th)
    ensures PcCurse(m, g, th, reg, up, n, x)
  {
    hide PcCurse, CursedThread, CursedList, ThreadOk;
    if th.pc.Load? { KeyBelow(g, th); LoadCurse(m, g, th, reg, up, n, x); }
    else if th.pc.Splice? || th.pc.Publish? || th.pc.Mark? { CasCurse(m, g, th, reg, up, n, x); }
    else { OtherCurse(m, g, th, reg, up, n, x); }
  }

  lemma BelowCurse(m: nat, g: Shared, th: Thread, reg: Reg, up: Towers, a: Act, x: real)
    requires Moving(m, g, th, reg, up, a, x) && a.Move? && reg.phase.Below?
    ensures CurseStays(m, g, th, reg, up, a, x)
  {
    hide ListInv, ThreadOk, TowersOk, RegOk, CursedList, Outcome, CasOk, AfterGo, Noted;
    var n := a.memory;
    var (_, reg', up') := Effect(m, g, th, reg, up, a);
    var (th', g') := Outcome(g, th, Go(n));
    GoCurse(m, g, th, reg, up, n, x);
    ListKept(g, th, Go(n));
    NodesStay(g, g', up, x);
    UpKeys(m, g.nodes, up, n);
    DeadLink(g.nodes, up, x);
    if th.pc.Publish? && CasOk(g.nodes, th.pc.pred, th.pc.succ) {
      LowStays(g, g', x, reg.succs[0]);
      TowerStays(g'.nodes, up, x, n, up'[n]);
    }
    ThreadStays(g, g', x, th'.key, th'.pc, reg');
  }

  lemma LowStays(g: Shared, g': Shared, x: real, p: Ptr)
    requires Rely(g.nodes, g.linked, g'.nodes, g'.linked)
    ensures Low(g.nodes, x, p) ==> Low(g'.nodes, x, p)
  {
  }

  lemma ThreadStays(g: Shared, g': Shared, x: real, key: real, pc: Pc, reg: Reg)
    requires Rely(g.nodes, g.linked, g'.nodes, g'.linked) && CursedThread(g.nodes, x, key, pc, reg)
    ensures CursedThread(g'.nodes, x, key, pc, reg)
  {
  }

  lemma MoverCurse(m: nat, g: Shared, th: Thread, reg: Reg, up: Towers, a: Act, x: real)
    requires Moving(m, g, th, reg, up, a, x)
    ensures CurseStays(m, g, th, reg, up, a, x)
  {
    hide MoverOk, CurseStays, StepUp, CursedList, CursedThread;
    if a.Start? { StartCurse(m, g, th, reg, up, a, x); }
    else if reg.phase.Below? { BelowCurse(m, g, th, reg, up, a, x); }
    else if reg.phase.Descend? { DescendCurse(m, g, th, reg, up, a, x); }
    else if reg.phase.Walk? { WalkCurse(m, g, th, reg, up, a, x); }
    else if reg.phase.Cut? { CutCurse(m, g, th, reg, up, a, x); }
    else if reg.phase.Store? || reg.phase.Join? { LinkCurse(m, g, th, reg, up, a, x); }
    else { LookCurse(m, g, th, reg, up, a, x); }
  }

  lemma CurseKept(m: nat, s: Tower.State, t: Tid, a: Act, s': Tower.State, x: real)
    requires m >= 1 && Inv(s.base) && UpInv(m, s) && Cursed(s, x) && Tower.Next(m, s, t, a, s')
    ensures Cursed(s', x)
  {
    hide ListInv, ThreadOk, TowersOk, RegOk, Outcome, Enabled, Ready, Effect, CursedList, CursedThread, Observe;
    var g, th, reg, up := s.base.g, s.base.threads[t], s.regs[t], s.up;
    assert ThreadUp(m, s, t);
    assert MoverOk(m, g, th, reg, up);
    MoverUp(m, g, th, reg, up, a);
    MoverCurse(m, g, th, reg, up, a, x);
    var (b, reg', up') := Effect(m, g, th, reg, up, a);
    var (th', g') := Outcome(g, th, b);
    ThreadsAfter(s.base, t, b, s'.base);
    ListKept(g, th, b);
    Observed(th', g');
    forall u | u in s'.regs
      ensures CursedThread(s'.base.g.nodes, x, s'.base.threads[u].key, s'.base.threads[u].pc, s'.regs[u])
    {
      if u != t {
        Observed(s.base.threads[u], g');
        ThreadStays(g, g', x, s.base.threads[u].key, s.base.threads[u].pc, s.regs[u]);
      }
    }
  }

  lemma {:induction false} CurseLasts(m: nat, run: seq<Tower.State>, i: nat, j: nat, x: real)
    requires m >= 1 && Tower.Behavior(m, run) && i <= j < |run| && Cursed(run[i], x)
    ensures Cursed(run[j], x)
    decreases j
  {
    hide UpInv, Inv, Cursed, Tower.Next;
    if i < j {
      CurseLasts(m, run, i, j - 1, x);
      BaseInv(m, run, j - 1);
      AlwaysUp(m, run, j - 1);
      assert Tower.StepAt(m, run, j - 1);
      var t, a :| Tower.Next(m, run[j - 1], t, a, run[j]);
      CurseKept(m, run[j - 1], t, a, run[j], x);
    }
  }

  // ---------------------------------------------------------------------------
  // The race that brings it about
  // ---------------------------------------------------------------------------

  // The dead node is back on level 1, and both threads are through.
  predicate Aftermath(m: nat, x: real, sc: Scene) {
    && Haunted(m, sc) && sc.nodes == Plain(TAIL)[OLD := Node(x, TAIL, true)]
    && sc.one.pc.Returned? && sc.one.key == x && sc.two.pc == Returned(Remove, true)
  }

  lemma Finishing(m: nat, sc: Scene, x: real) returns (film: seq<Scene>)
    requires Unlinked(m, Store(1), x, sc) && m >= 1
    ensures From(m, film, sc) && Aftermath(m, x, Last(film)) && Last(film).two == sc.two
  {
    hide Shot, Plain;
    film := Reviving(m, sc);
    var s1 := Last(film);
    var s2 := Play(m, s1, true, Move(0));
    assert s2 == s1.(one := s1.one.(pc := Returned(Insert, true)), clock := s1.clock + 1);
    Single(m, s1, true, Move(0));
    Cat(m, film, [s1, s2], sc, s1, s2);
    film := Splicing(film, [s1, s2]);
  }

  lemma Race(m: nat, sc: Scene, x: real, v: Value) returns (film: seq<Scene>)
    requires Opening(m, sc) && m >= 1 && NEG_INF < x < POS_INF
    ensures From(m, film, sc) && Aftermath(m, x, Last(film))
  {
    hide Opening, Waiting, Flagged, Buried, Unlinked, Aftermath, ShotAt, Steady, Still;
    var ph := Store(1);
    film := Publishing(m, sc, x, v);
    var f := Flagging(m, ph, Last(film), x);
    film := Append(m, film, f);
    f := Marking(m, ph, Last(film), x);
    film := Append(m, film, f);
    f := Unlinking(m, ph, Last(film), x);
    film := Append(m, film, f);
    f := Finishing(m, Last(film), x);
    film := Append(m, film, f);
  }

  lemma AftermathIsCursed(m: nat, s: Tower.State, t: Tid, u: Tid, sc: Scene, x: real)
    requires Shows(s, t, u, sc) && Aftermath(m, x, sc) && s.regs.Keys == s.base.threads.Keys
    requires NEG_INF < x < POS_INF
    requires TowersOk(m, s.base.g.nodes, s.up)
    requires forall w :: w in s.base.threads && w != t && w != u ==> s.base.threads[w].pc.Idle?
    ensures Cursed(s, x)
  {
    var nodes, up := s.base.g.nodes, s.up;
    forall p ensures Under(nodes, up, x, p) {}
  }

  ghost predicate InsertedAt(run: seq<Tower.State>, i: int, w: Tid) {
    && 0 <= i < |run| && w in run[i].base.threads
    && run[i].base.threads[w].pc.Returned? && run[i].base.threads[w].pc.goal.Insert?
  }

  // No insert of a key beyond `x` has returned, from state `from` of the run on.
  ghost predicate NoneReturns(run: seq<Tower.State>, from: nat, x: real) {
    forall i, w {:trigger InsertedAt(run, i, w)} ::
      from <= i < |run| && InsertedAt(run, i, w) ==> run[i].base.threads[w].key <= x
  }

  lemma CursedReturns(m: nat, run: seq<Tower.State>, from: nat, x: real)
    requires m >= 1 && Tower.Behavior(m, run) && from < |run| && Cursed(run[from], x)
    ensures NoneReturns(run, from, x)
  {
    hide Tower.Behavior, CursedList;
    forall i, w | from <= i < |run| && InsertedAt(run, i, w)
      ensures run[i].base.threads[w].key <= x
    {
      CurseLasts(m, run, from, i, x);
      assert w in run[i].regs;
    }
  }

  // No operation is under way.
  ghost predicate Rested(s: Tower.State) {
    forall w :: w in s.base.threads ==> !Active(s.base.threads[w])
  }

  // One race of an insert of `x` with a remove of `x`, and in every continuation no
  // insert of a key beyond `x` returns, whatever any thread does.
  lemma InsertsHang(m: nat, ts: set<Tid>, t: Tid, u: Tid, x: real, v: Value) returns (run: seq<Tower.State>)
    requires m >= 1 && t in ts && u in ts && t != u && NEG_INF < x < POS_INF
    ensures Tower.Behavior(m, run) && run[0].base.threads.Keys == ts && Cursed(run[|run| - 1], x)
    ensures Rested(run[|run| - 1])
    ensures forall run': seq<Tower.State> :: Tower.Behavior(m, run') && run <= run' ==>
      NoneReturns(run', |run| - 1, x)
  {
    hide Tower.Init, Tower.StepAt, ShotAt, Opening, NoneReturns, CursedList, CursedThread;
    var sc := OutsetIsInit(m, ts, t, u);
    var film := Race(m, sc, x, v);
    run := Filmed(m, Outset(m, ts), t, u, film);
    var last := |run| - 1;
    assert Shows(run[last], t, u, Last(film));
    AlwaysUp(m, run, last);
    AftermathIsCursed(m, run[last], t, u, Last(film), x);
    forall run': seq<Tower.State> | Tower.Behavior(m, run') && run <= run'
      ensures NoneReturns(run', last, x)
    {
      assert run'[last] == run[last];
      CursedReturns(m, run', last, x);
    }
  }

  // An insert of a key beyond `x` that is under way stays under way.
  ghost predicate Stuck(s: Tower.State, u: Tid, x: real) {
    && u in s.base.threads && s.base.threads[u].key > x && Aim(s.base.threads[u].pc) == Some(Insert)
    && Active(s.base.threads[u])
  }

  lemma StuckStep(m: nat, s: Tower.State, t: Tid, a: Act, s': Tower.State, u: Tid, x: real)
    requires Tower.Next(m, s, t, a, s') && Cursed(s', x) && Stuck(s, u, x)
    ensures Stuck(s', u, x)
  {
    hide Ready, Effect, CursedList, Outcome, Enabled;
    var b := Effect(m, s.base.g, s.base.threads[t], s.regs[t], s.up, a).0;
    NoBegin(s.base.g, s.base.threads[t], b);
    AimStays(s.base, t, b, s'.base, u);
    SameKey(s.base, t, b, s'.base, u);
    assert u in s'.regs;
  }

  lemma NoBegin(g: Shared, th: Thread, b: Action)
    requires Enabled(g, th, b)
    ensures b.Begin? ==> !Active(th)
  {
  }

  lemma SameKey(s: BottomList.State, t: Tid, b: Action, s': BottomList.State, u: Tid)
    requires BottomList.Next(s, t, b, s') && u in s.threads && !(u == t && b.Begin?)
    ensures u in s'.threads && s'.threads[u].key == s.threads[u].key
  {
    hide AfterLoad, CasOk;
  }

  lemma {:induction false} StuckForGood(m: nat, run: seq<Tower.State>, i: nat, j: nat, u: Tid, x: real)
    requires m >= 1 && Tower.Behavior(m, run) && i <= j < |run| && Cursed(run[i], x) && Stuck(run[i], u, x)
    ensures Stuck(run[j], u, x)
    decreases j
  {
    hide Cursed, Stuck, Tower.Next;
    if i < j {
      StuckForGood(m, run, i, j - 1, u, x);
      CurseLasts(m, run, i, j, x);
      assert Tower.StepAt(m, run, j - 1);
      var t, a :| Tower.Next(m, run[j - 1], t, a, run[j]);
      StuckStep(m, run[j - 1], t, a, run[j], u, x);
    }
  }
}
