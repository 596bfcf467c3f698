/** Which operations return when they are left alone: all of them in a run in which no
  * mark is written over, and all of them in every run exactly when the list has one
  * level or one thread.
  */
module TowerFinish {
  import opened Common
  import opened BottomList
  import opened BottomSteps
  import opened BottomCalls
  import opened Tower
  import opened TowerClean
  import opened TowerFilm
  import opened TowerRank
  import opened TowerProgress
  import opened TowerStuck

  // ---------------------------------------------------------------------------
  // An operation left alone
  // ---------------------------------------------------------------------------

  // Thread `t` is in an operation, and no dead node is in its way.
  ghost predicate Going(m: nat, s: Tower.State, t: Tid, ranks: Ranks) {
    && Inv(s.base) && UpInv(m, s) && RankInv(m, s, ranks) && t in s.base.threads && t in s.regs
    && Staged(s.base.g.nodes, s.up, s.base.threads[t].key)
  }

  ghost function Left(m: nat, s: Tower.State, t: Tid, ranks: Ranks): int
    requires t in s.base.threads && t in s.regs
  {
    Weight(m, s.base.g.nodes, s.up, ranks, s.base.threads[t].pc, s.regs[t])
  }

  lemma OwnStepNearer(m: nat, s: Tower.State, t: Tid, a: Act, s': Tower.State, ranks: Ranks) returns (ranks': Ranks)
    requires Going(m, s, t, ranks) && Active(s.base.threads[t]) && Tower.Next(m, s, t, a, s')
    ensures Going(m, s', t, ranks') && 0 <= Left(m, s', t, ranks') < Left(m, s, t, ranks)
    ensures ranks' == RanksAfter(s.base.g, s.base.threads[t], s.regs[t], s.up, a, ranks)
  {
    hide ListInv, ThreadOk, TowersOk, RegOk, Outcome, Enabled, Ready, Effect, RanksOk, ThreadRank, Observe, Staged,
      Weight, RanksAfter, MarksBelow;
    var g, th, reg, up := s.base.g, s.base.threads[t], s.regs[t], s.up;
    assert ThreadUp(m, s, t);
    assert MoverOk(m, g, th, reg, up);
    OnlyMoves(m, g, th, reg, up, a);
    MoverUp(m, g, th, reg, up, a);
    assert Alone(m, g, th, reg, up, a, ranks);
    AloneNearer(m, g, th, reg, up, a, ranks);
    OwnMarks(m, g, th, reg, up, a, ranks);
    var (b, reg', up') := Effect(m, g, th, reg, up, a);
    var (th', g') := Outcome(g, th, b);
    StagedStays(g.nodes, up, g'.nodes, up', th.key);
    UpKept(m, s, t, a, s');
    StepKeepsInv(s.base, t, b, s'.base);
    ranks' := RankKept(m, s, t, a, s', ranks);
    ThreadsAfter(s.base, t, b, s'.base);
    Observed(th', g');
    BottomOrder.KeepsOp(g, th, b);
  }

  lemma OnlyMoves(m: nat, g: Shared, th: Thread, reg: Reg, up: Towers, a: Act)
    requires Ready(m, g, th, reg, up, a) && Active(th)
    ensures a.Move? && !Effect(m, g, th, reg, up, a).0.Begin?
  {
    hide Outcome;
  }

  // ---------------------------------------------------------------------------
  // Clean runs
  // ---------------------------------------------------------------------------

  // Marks come from the top.
  ghost predicate AllStaged(nodes: Heap, up: Towers) {
    forall p, l: nat {:trigger StagedAt(nodes, up, p, l)} :: StagedAt(nodes, up, p, l)
  }

  // A mark that comes is on a node that is marked on all levels above.
  ghost predicate MarksFromTop(nodes: Heap, up: Towers, nodes': Heap, up': Towers) {
    && (forall p {:trigger NewlyDead(nodes, nodes', p)} :: NewlyDead(nodes, nodes', p) ==> AllMarked(up', p, 0))
    && (forall p, l: nat {:trigger NewMark(up, up', p, l)} :: NewMark(up, up', p, l) ==> AllMarked(up', p, l))
  }

  predicate NewlyDead(nodes: Heap, nodes': Heap, p: Ptr) {
    p in nodes' && nodes'[p].marked && !(p in nodes && nodes[p].marked)
  }

  predicate NewMark(up: Towers, up': Towers, p: Ptr, l: nat) {
    Has(up', p, l) && At(up', p, l).marked && !(Has(up, p, l) && At(up, p, l).marked)
  }

  lemma StagedOn(nodes: Heap, up: Towers, nodes': Heap, up': Towers)
    requires AllStaged(nodes, up) && MarksFromTop(nodes, up, nodes', up') && MarksStay(up, up')
    requires Grown(up, up') && up.Keys == nodes.Keys && up'.Keys == nodes'.Keys
    ensures AllStaged(nodes', up')
  {
    forall p, l: nat ensures StagedAt(nodes', up', p, l) {
      if Has(up', p, l) && p in nodes' && !At(up', p, l).marked {
        assert StagedAt(nodes, up, p, l);
        assert p in nodes ==> Has(up, p, l) && !At(up, p, l).marked;
        NotAllMarked(up', p, l);
        assert if l > 1 then !NewMark(up, up', p, l - 1) else !NewlyDead(nodes, nodes', p);
      }
    }
  }

  lemma NotAllMarked(up: Towers, p: Ptr, l: nat)
    requires Has(up, p, l) && !At(up, p, l).marked
    ensures !AllMarked(up, p, l - 1)
  {
    assert !up[p][l - 1].marked;
  }

  lemma NoNewMarks(nodes: Heap, up: Towers)
    ensures MarksFromTop(nodes, up, nodes, up)
  {
  }

  lemma PutFromTop(nodes: Heap, up: Towers, p: Ptr, l: nat, link: Link)
    requires Has(up, p, l) && (link.marked ==> AllMarked(up, p, l))
    ensures MarksFromTop(nodes, up, nodes, Put(up, p, l, link))
  {
    var up' := Put(up, p, l, link);
    forall q, k: nat | NewMark(up, up', q, k) ensures AllMarked(up', q, k) {
      forall j | k <= j < |up'[q]| ensures up'[q][j].marked { assert up[p][j].marked; }
    }
  }

  // The steps of a clean run.
  lemma StepFromTop(m: nat, g: Shared, th: Thread, reg: Reg, up: Towers, a: Act)
    requires Sound(m, g, th, reg, up, a)
    ensures
      var (b, _, up') := Effect(m, g, th, reg, up, a);
      Enabled(g, th, b) && MarksFromTop(g.nodes, up, Outcome(g, th, b).1.nodes, up')
  {
    hide ListInv, ThreadOk, TowersOk, Noted, Put, MarksFromTop, Advance, AfterPublish, MarksStay, Capped, AllMarked;
    NoNewMarks(g.nodes, up);
    if a.Move? {
      match reg.phase
      case Cut(l, curr, succ) =>
        if At(up, th.pc.start, l) == Link(curr, false) { PutFromTop(g.nodes, up, th.pc.start, l, Link(succ, false)); }
      case Store(l) => PutFromTop(g.nodes, up, reg.node, l, Link(reg.succs[l - 1], false));
      case Join(l) =>
        if At(up, reg.preds[l - 1], l) == Link(reg.succs[l - 1], false) {
          PutFromTop(g.nodes, up, reg.preds[l - 1], l, Link(reg.node, false));
        }
      case Flag(l, succ) =>
        LoadSuccNode(g, th);
        NoNull(g);
        if At(up, th.pc.node, l) == Link(succ, false) { PutFromTop(g.nodes, up, th.pc.node, l, Link(succ, true)); }
      case Below => GoFromTop(m, g, th, reg, up, a.memory);
      case _ =>
    }
  }

  lemma GoFromTop(m: nat, g: Shared, th: Thread, reg: Reg, up: Towers, n: Ptr)
    requires ListInv(g) && ThreadOk(g, th) && TowersOk(m, g.nodes, up) && Enabled(g, th, Go(n)) && reg.phase.Below?
    requires reg.top <= |reg.succs| && CleanThread(up, th, reg)
    ensures MarksFromTop(g.nodes, up, Outcome(g, th, Go(n)).1.nodes, AfterPublish(g, th, reg, up, n))
  {
    hide ListInv, ThreadOk, TowersOk, Enabled, Outcome, AllMarked;
    var nodes', up' := Outcome(g, th, Go(n)).1.nodes, AfterPublish(g, th, reg, up, n);
    DoomedAfter(g, th, n);
    forall p | NewlyDead(g.nodes, nodes', p) ensures AllMarked(up', p, 0) {}
    forall p, l: nat ensures !NewMark(up, up', p, l) {}
  }

  lemma {:induction false} AlwaysStaged(m: nat, run: seq<Tower.State>, i: nat)
    requires Tower.Behavior(m, run) && Clean(run) && i < |run|
    ensures AllStaged(run[i].base.g.nodes, run[i].up)
  {
    hide UpInv, Inv, CleanInv, Tower.Next, MarksStay;
    if i > 0 {
      hide AllStaged;
      AlwaysStaged(m, run, i - 1);
      AlwaysClean(m, run, i - 1);
      BaseInv(m, run, i - 1);
      AlwaysUp(m, run, i - 1);
      AlwaysUp(m, run, i);
      assert Tower.StepAt(m, run, i - 1) && CleanAt(run, i - 1);
      var t, a :| Tower.Next(m, run[i - 1], t, a, run[i]);
      StagedStep(m, run[i - 1], t, a, run[i]);
    }
  }

  lemma StagedStep(m: nat, s: Tower.State, t: Tid, a: Act, s': Tower.State)
    requires Inv(s.base) && UpInv(m, s) && UpInv(m, s') && CleanInv(s) && Tower.Next(m, s, t, a, s')
    requires MarksStay(s.up, s'.up) && AllStaged(s.base.g.nodes, s.up)
    ensures AllStaged(s'.base.g.nodes, s'.up)
  {
    hide ListInv, ThreadOk, RegOk, Outcome, Enabled, Ready, Effect, Capped, CleanThread, MarksStay, AllStaged,
      MarksFromTop;
    var g, th, reg, up := s.base.g, s.base.threads[t], s.regs[t], s.up;
    assert ThreadUp(m, s, t);
    assert MoverOk(m, g, th, reg, up);
    MoverUp(m, g, th, reg, up, a);
    assert Sound(m, g, th, reg, up, a);
    StepFromTop(m, g, th, reg, up, a);
    ThreadsAfter(s.base, t, Effect(m, g, th, reg, up, a).0, s'.base);
    StagedOn(g.nodes, up, s'.base.g.nodes, s'.up);
  }

  lemma StagedBelow(nodes: Heap, up: Towers, key: real)
    requires AllStaged(nodes, up)
    ensures Staged(nodes, up, key)
  {
  }

  lemma CleanIsGoing(m: nat, run: seq<Tower.State>, i: nat, t: Tid) returns (ranks: Ranks)
    requires Tower.Behavior(m, run) && Clean(run) && i < |run| && t in run[i].base.threads
    ensures Going(m, run[i], t, ranks)
  {
    hide Tower.Behavior, RanksOk, TowersOk, ThreadRank, ListInv, ThreadOk, RegOk, Staged, AllStaged;
    BaseInv(m, run, i);
    AlwaysUp(m, run, i);
    AlwaysStaged(m, run, i);
    ranks := AlwaysRanked(m, run, i);
    StagedBelow(run[i].base.g.nodes, run[i].up, run[i].base.threads[t].key);
  }

  // ---------------------------------------------------------------------------
  // Left alone, an operation returns
  // ---------------------------------------------------------------------------

  // From state `i` on only thread `t` moves.
  ghost predicate OnlyThread(m: nat, run: seq<Tower.State>, i: nat, t: Tid) {
    forall j {:trigger StepOf(m, run, j, t)} :: i <= j < |run| - 1 ==> StepOf(m, run, j, t)
  }

  ghost predicate StepOf(m: nat, run: seq<Tower.State>, j: int, t: Tid) {
    0 <= j < |run| - 1 && Moves(m, run[j], t, run[j + 1])
  }

  ghost predicate Moves(m: nat, s: Tower.State, t: Tid, s': Tower.State) {
    exists a :: Tower.Next(m, s, t, a, s')
  }

  ghost predicate BusyAt(run: seq<Tower.State>, j: int, t: Tid) {
    0 <= j < |run| && t in run[j].base.threads && Active(run[j].base.threads[t])
  }

  // However its steps turn out, it is at most so many.
  lemma {:induction false} AloneBounded(m: nat, run: seq<Tower.State>, i: nat, t: Tid, ranks: Ranks)
    requires i < |run| && OnlyThread(m, run, i, t) && Going(m, run[i], t, ranks)
    requires forall j {:trigger BusyAt(run, j, t)} :: i <= j < |run| - 1 ==> BusyAt(run, j, t)
    ensures i < |run| - 1 ==> |run| - 1 - i <= Left(m, run[i], t, ranks)
    decreases |run| - i
  {
    hide Going, Left, Tower.Next;
    if i < |run| - 1 {
      assert StepOf(m, run, i, t) && BusyAt(run, i, t);
      var a :| Tower.Next(m, run[i], t, a, run[i + 1]);
      var ranks' := OwnStepNearer(m, run[i], t, a, run[i + 1], ranks);
      AloneBounded(m, run, i + 1, t, ranks');
    }
  }

  // A join changes its level.
  lemma JoinShows(m: nat, g: Shared, th: Thread, reg: Reg, up: Towers, a: Act, ranks: Ranks)
    requires MoverOk(m, g, th, reg, up) && Ready(m, g, th, reg, up, a) && RanksOk(m, g.nodes, up, ranks)
    requires ThreadRank(m, g.nodes, ranks, th.key, th.pc, reg) && Joins(g, th, reg, up, a)
    ensures Effect(m, g, th, reg, up, a).2 != up
  {
    hide ListInv, ThreadOk, TowersOk, RanksOk, NotedAbove, Noted;
    var l := reg.phase.level;
    LinksHere(m, g.nodes, up, ranks, l, reg.node);
    NotedOf(m, g.nodes, ranks, th.key, reg, l);
    assert In(ranks, l, reg.node) <==> l < reg.rung;
    assert At(Effect(m, g, th, reg, up, a).2, reg.preds[l - 1], l) != At(up, reg.preds[l - 1], l);
  }

  lemma NoJoin(g: Shared, th: Thread, reg: Reg, up: Towers, a: Act, ranks: Ranks)
    requires !Joins(g, th, reg, up, a)
    ensures RanksAfter(g, th, reg, up, a, ranks) == ranks
  {
  }

  // A step of another thread that changes no link.
  lemma OthersQuiet(m: nat, s: Tower.State, u: Tid, a: Act, s': Tower.State, t: Tid, ranks: Ranks)
    requires Going(m, s, t, ranks) && Tower.Next(m, s, u, a, s') && u != t
    requires s'.base.g.nodes == s.base.g.nodes && s'.up == s.up
    ensures Going(m, s', t, ranks) && Left(m, s', t, ranks) == Left(m, s, t, ranks)
  {
    hide ListInv, ThreadOk, TowersOk, RegOk, Outcome, Enabled, Ready, Effect, RanksOk, ThreadRank, Observe, Staged,
      Weight, RanksAfter;
    var g, th, reg, up := s.base.g, s.base.threads[u], s.regs[u], s.up;
    assert ThreadUp(m, s, u);
    assert MoverOk(m, g, th, reg, up);
    var b := Effect(m, g, th, reg, up, a).0;
    UpKept(m, s, u, a, s');
    StepKeepsInv(s.base, u, b, s'.base);
    var ranks' := RankKept(m, s, u, a, s', ranks);
    if Joins(g, th, reg, up, a) { JoinShows(m, g, th, reg, up, a, ranks); }
    assert ranks' == ranks by { NoJoin(g, th, reg, up, a, ranks); }
    ThreadsAfter(s.base, u, b, s'.base);
    Observed(s.base.threads[t], Outcome(g, th, b).1);
  }

  // Step `j` is by thread `t` in its operation, or changes no link.
  ghost predicate QuietStep(m: nat, run: seq<Tower.State>, movers: seq<Tid>, j: int, t: Tid) {
    && 0 <= j < |run| - 1 && j < |movers| && Moves(m, run[j], movers[j], run[j + 1])
    && if movers[j] == t then BusyAt(run, j, t)
       else run[j + 1].base.g.nodes == run[j].base.g.nodes && run[j + 1].up == run[j].up
  }

  // How many of the steps from `i` on are by `t`.
  function StepsOf(movers: seq<Tid>, i: nat, t: Tid): nat
    decreases |movers| - i
  {
    if i >= |movers| then 0 else (if movers[i] == t then 1 else 0) + StepsOf(movers, i + 1, t)
  }

  // An operation takes more steps than that only if another thread changes a link meanwhile.
  lemma {:induction false} Undisturbed(m: nat, run: seq<Tower.State>, movers: seq<Tid>, i: nat, t: Tid, ranks: Ranks)
    requires i < |run| == |movers| + 1 && Going(m, run[i], t, ranks)
    requires forall j {:trigger QuietStep(m, run, movers, j, t)} :: i <= j < |movers| ==>
      QuietStep(m, run, movers, j, t)
    ensures StepsOf(movers, i, t) == 0 || StepsOf(movers, i, t) <= Left(m, run[i], t, ranks)
    decreases |run| - i
  {
    hide Going, Left, Tower.Next, BusyAt;
    if i < |movers| {
      assert QuietStep(m, run, movers, i, t);
      var a :| Tower.Next(m, run[i], movers[i], a, run[i + 1]);
      var ranks' := ranks;
      if movers[i] == t {
        Busy(run, i, t);
        ranks' := OwnStepNearer(m, run[i], t, a, run[i + 1], ranks);
      } else {
        OthersQuiet(m, run[i], movers[i], a, run[i + 1], t, ranks);
      }
      Undisturbed(m, run, movers, i + 1, t, ranks');
    }
  }

  lemma Busy(run: seq<Tower.State>, j: nat, t: Tid)
    requires BusyAt(run, j, t)
    ensures j < |run| && t in run[j].base.threads && Active(run[j].base.threads[t])
  {
  }

  // The operation has returned.
  ghost predicate Ended(s: Tower.State, s': Tower.State, t: Tid) {
    && t in s.base.threads && t in s'.base.threads && s'.base.threads[t].pc.Returned?
    && s'.base.threads[t].begin == s.base.threads[t].begin && s'.base.threads[t].key == s.base.threads[t].key
  }

  lemma SameOperation(m: nat, s: Tower.State, t: Tid, a: Act, s': Tower.State)
    requires Tower.Next(m, s, t, a, s') && Active(s.base.threads[t])
    ensures t in s'.base.threads && !s'.base.threads[t].pc.Idle?
    ensures s'.base.threads[t].begin == s.base.threads[t].begin && s'.base.threads[t].key == s.base.threads[t].key
  {
    hide Ready, Effect, Outcome, Enabled, Observe;
    var g, th, reg, up := s.base.g, s.base.threads[t], s.regs[t], s.up;
    OnlyMoves(m, g, th, reg, up, a);
    var b := Effect(m, g, th, reg, up, a).0;
    ThreadsAfter(s.base, t, b, s'.base);
    BottomOrder.KeepsOp(g, th, b);
    Observed(Outcome(g, th, b).0, Outcome(g, th, b).1);
  }

  lemma {:induction false} RunsToEnd(m: nat, run: seq<Tower.State>, t: Tid, ranks: Ranks)
      returns (run': seq<Tower.State>)
    requires Tower.Behavior(m, run) && Going(m, run[|run| - 1], t, ranks) && BusyAt(run, |run| - 1, t)
    ensures Tower.Behavior(m, run') && run <= run' && OnlyThread(m, run', |run| - 1, t)
    ensures Ended(run[|run| - 1], run'[|run'| - 1], t) && |run'| <= |run| + Left(m, run[|run| - 1], t, ranks)
    decreases Left(m, run[|run| - 1], t, ranks)
  {
    hide Tower.Init, Tower.StepAt, Going, Left, Tower.Next, Weight;
    var last := |run| - 1;
    NeverStuck(m, run, last, t);
    var n, s' :| Tower.Next(m, run[last], t, Move(n), s');
    var ranks' := OwnStepNearer(m, run[last], t, Move(n), s', ranks);
    SameOperation(m, run[last], t, Move(n), s');
    assert Tower.Stepped(m, run[last], s') && Moves(m, run[last], t, s');
    Longer(m, run, s');
    var more := run + [s'];
    if Active(s'.base.threads[t]) {
      run' := RunsToEnd(m, more, t, ranks');
    } else {
      run' := more;
    }
    forall j | last <= j < |run'| - 1 ensures StepOf(m, run', j, t) {
      if j > last { assert StepOf(m, run', j, t); } else { assert run'[last] == run[last] && run'[last + 1] == s'; }
    }
  }

  // In a clean run every operation that is left alone returns, within a number of steps
  // that grows with the height of the list and the number of its nodes.
  lemma LeftAloneReturns(m: nat, run: seq<Tower.State>, t: Tid) returns (run': seq<Tower.State>)
    requires Tower.Behavior(m, run) && Clean(run) && BusyAt(run, |run| - 1, t)
    ensures Tower.Behavior(m, run') && run <= run' && OnlyThread(m, run', |run| - 1, t)
    ensures Ended(run[|run| - 1], run'[|run'| - 1], t)
    ensures |run'| - |run| <= 5 * ((m + 1) * (2 * |run[|run| - 1].base.g.nodes| + 8))
  {
    hide Tower.Behavior, Clean, Going, Left, OnlyThread, Weight;
    var last := |run| - 1;
    var ranks := CleanIsGoing(m, run, last, t);
    LeftMost(m, run[last], t, ranks);
    run' := RunsToEnd(m, run, t, ranks);
  }

  // With other threads at work: it takes more steps than that only if meanwhile another
  // thread changes a link.
  lemma RetriesMeanChange(m: nat, run: seq<Tower.State>, movers: seq<Tid>, i: nat, t: Tid)
    requires Tower.Behavior(m, run) && i < |run| == |movers| + 1 && Clean(run[..i + 1]) && BusyAt(run, i, t)
    requires forall j {:trigger QuietStep(m, run, movers, j, t)} :: i <= j < |movers| ==>
      QuietStep(m, run, movers, j, t)
    ensures StepsOf(movers, i, t) <= 5 * ((m + 1) * (2 * |run[i].base.g.nodes| + 8))
  {
    hide Tower.Init, Tower.StepAt, Clean, Going, Left, QuietStep;
    var head := run[..i + 1];
    forall j | 0 <= j < |head| - 1 ensures Tower.StepAt(m, head, j) {
      assert Tower.StepAt(m, run, j);
      SameStepAt(m, run, head, j);
    }
    var ranks := CleanIsGoing(m, head, i, t);
    LeftMost(m, run[i], t, ranks);
    Undisturbed(m, run, movers, i, t, ranks);
  }

  lemma SameStepAt(m: nat, run: seq<Tower.State>, head: seq<Tower.State>, j: nat)
    requires head <= run && j + 1 < |head| && Tower.StepAt(m, run, j)
    ensures Tower.StepAt(m, head, j)
  {
    hide Tower.Stepped;
  }

  lemma LeftMost(m: nat, s: Tower.State, t: Tid, ranks: Ranks)
    requires Going(m, s, t, ranks)
    ensures t in s.base.threads && t in s.regs
    ensures Left(m, s, t, ranks) <= 5 * ((m + 1) * (2 * |s.base.g.nodes| + 8))
  {
    hide ListInv, ThreadOk, TowersOk, RegOk, RanksOk, ThreadRank, Staged, Weight;
    assert ThreadUp(m, s, t);
    WeightBound(m, s.base.g, s.base.threads[t], s.regs[t], s.up, ranks);
  }

  // ---------------------------------------------------------------------------
  // When every operation returns
  // ---------------------------------------------------------------------------

  lemma StartsInsert(m: nat, s: Tower.State, u: Tid, x: real, z: real, v: Value) returns (s': Tower.State)
    requires UpInv(m, s) && Rested(s) && u in s.base.threads && NEG_INF < x < z < POS_INF
    ensures Tower.Next(m, s, u, Start(Insert, z, v, 0), s') && Stuck(s', u, x) && s'.base.threads[u].key == z
  {
    hide TowersOk, ThreadUp;
    s' := After(m, s, u, Start(Insert, z, v, 0));
  }

  // For any two keys `x` and `z`, after one race of an insert with a remove of `x` an insert
  // of `z` has begun that is still under way in every continuation of the run.
  lemma HangsForGood(m: nat, ts: set<Tid>, t: Tid, u: Tid, x: real, z: real, v: Value) returns (run: seq<Tower.State>)
    requires m >= 1 && t in ts && u in ts && t != u && NEG_INF < x < z < POS_INF
    ensures Tower.Behavior(m, run) && run[0].base.threads.Keys == ts && BusyAt(run, |run| - 1, u)
    ensures run[|run| - 1].base.threads[u].key == z && Aim(run[|run| - 1].base.threads[u].pc) == Some(Insert)
    ensures forall run': seq<Tower.State> :: Tower.Behavior(m, run') && run <= run' ==> BusyAt(run', |run'| - 1, u)
  {
    hide Tower.Init, Tower.StepAt, Tower.Next, Cursed, NoneReturns, Aim, UpInv;
    var race := InsertsHang(m, ts, t, u, x, v);
    var last := |race| - 1;
    AlwaysUp(m, race, last);
    ThreadsStay(m, race, last);
    var s' := StartsInsert(m, race[last], u, x, z, v);
    assert Tower.Stepped(m, race[last], s');
    Longer(m, race, s');
    run := race + [s'];
    assert run[last] == race[last];
    CurseLasts(m, run, last, last + 1, x);
    forall run': seq<Tower.State> | Tower.Behavior(m, run') && run <= run' ensures BusyAt(run', |run'| - 1, u) {
      assert run'[last + 1] == run[last + 1];
      StuckForGood(m, run', last + 1, |run'| - 1, u, x);
    }
  }

  lemma {:induction false} ThreadsStay(m: nat, run: seq<Tower.State>, i: nat)
    requires Tower.Behavior(m, run) && i < |run|
    ensures run[i].base.threads.Keys == run[0].base.threads.Keys
  {
    hide Tower.Init, Ready, Effect, Outcome, Enabled;
    if i > 0 {
      ThreadsStay(m, run, i - 1);
      assert Tower.StepAt(m, run, i - 1);
    }
  }

  // Left alone from now on, thread `t` can end its operation.
  ghost predicate CanReturn(m: nat, run: seq<Tower.State>, t: Tid)
    requires |run| > 0
  {
    exists run': seq<Tower.State> :: Returning(m, run, run', t)
  }

  ghost predicate Returning(m: nat, run: seq<Tower.State>, run': seq<Tower.State>, t: Tid)
    requires |run| > 0
  {
    && Tower.Behavior(m, run') && run <= run' && OnlyThread(m, run', |run| - 1, t)
    && Ended(run[|run| - 1], run'[|run'| - 1], t)
  }

  // A run of the given threads, at whose end `t` is in an operation.
  ghost predicate BusyRun(m: nat, ts: set<Tid>, run: seq<Tower.State>, t: Tid) {
    Tower.Behavior(m, run) && run[0].base.threads.Keys == ts && BusyAt(run, |run| - 1, t)
  }

  // In every run every operation can end if it is left alone, if and only if the list has
  // a single level or a single thread.
  lemma ReturnsIffFlatOrAlone(m: nat, ts: set<Tid>)
    ensures
      (forall run: seq<Tower.State>, t :: BusyRun(m, ts, run, t) ==> CanReturn(m, run, t)) <==> (m == 0 || |ts| <= 1)
  {
    hide Tower.Init, Tower.StepAt, BusyAt, OnlyThread, Ended;
    if m == 0 || |ts| <= 1 {
      forall run: seq<Tower.State>, t | BusyRun(m, ts, run, t) ensures CanReturn(m, run, t) {
        assert |run[0].base.threads| == |ts|;
        FlatOrAloneIsClean(m, run);
        var run' := LeftAloneReturns(m, run, t);
        assert Returning(m, run, run', t);
      }
    } else {
      var t, u := TwoOf(ts);
      var run := HangsForGood(m, ts, t, u, 0.0, 1.0, 0);
      assert BusyRun(m, ts, run, u);
      Hangs(m, run, u);
    }
  }

  lemma Hangs(m: nat, run: seq<Tower.State>, u: Tid)
    requires |run| > 0
    requires forall run': seq<Tower.State> :: Tower.Behavior(m, run') && run <= run' ==> BusyAt(run', |run'| - 1, u)
    ensures !CanReturn(m, run, u)
  {
    hide Tower.Behavior, OnlyThread;
  }
}
