/** Three promises about retired nodes, each kept by every run exactly when the list
  * has one level or one thread: head leads to none on level 0; on no level; and no
  * operation holds one that was retired before it began.
  */
module TowerSafe {
  import opened BottomList
  import opened BottomRuns
  import opened BottomLinear
  import BottomHandover
  import Ebr
  import opened Tower
  import opened TowerClean
  import opened TowerFilm
  import opened TowerSolo
  import TowerStory
  import TowerStale
  import TowerRetire

  // ---------------------------------------------------------------------------
  // The promises
  // ---------------------------------------------------------------------------

  ghost predicate UpWalk(up: Towers, l: nat, w: seq<Ptr>) {
    && |w| > 0
    && forall i :: 0 <= i < |w| - 1 ==> w[i] != TAIL && Has(up, w[i], l) && At(up, w[i], l).next == w[i + 1]
  }

  // Following links of level `l` from head leads to `p`.
  ghost predicate Linked(s: Tower.State, l: nat, p: Ptr) {
    if l == 0 then Reachable(s.base.g.nodes, p)
    else exists w :: UpWalk(s.up, l, w) && w[0] == HEAD && w[|w| - 1] == p
  }

  ghost predicate OffAt(run: seq<Tower.State>, i: int, l: nat, v: Ptr) {
    0 <= i < |run| && v in run[i].base.g.retired ==> !Linked(run[i], l, v)
  }

  ghost predicate OffBottom(run: seq<Tower.State>) {
    forall i, v {:trigger OffAt(run, i, 0, v)} :: OffAt(run, i, 0, v)
  }

  ghost predicate OffLevels(m: nat, run: seq<Tower.State>) {
    forall i, l: nat, v {:trigger OffAt(run, i, l, v)} :: l <= m ==> OffAt(run, i, l, v)
  }

  // The nodes an operation has at hand on the level it works on: whatever a step
  // looks at, on any level, is among them.
  function Held(th: Thread, reg: Reg): set<Ptr> {
    match reg.phase
    case Below => BottomReclaim.Pointers(th.pc)
    case Descend(_) => Start(th.pc)
    case Walk(_, curr) => Start(th.pc) + {curr}
    case Cut(_, curr, succ) => Start(th.pc) + {curr, succ}
    case Store(l) => {reg.node} + Found(reg, l)
    case Join(l) => {reg.node} + Found(reg, l)
    case Look(_) => if th.pc.LoadSucc? then {th.pc.node} else {}
    case Flag(_, _) => if th.pc.LoadSucc? then {th.pc.node} else {}
  }

  function Start(pc: Pc): set<Ptr> { if pc.Route? then {pc.start} else {} }

  function Found(reg: Reg, l: nat): set<Ptr> {
    if 1 <= l <= |reg.preds| && l <= |reg.succs| then {reg.preds[l - 1], reg.succs[l - 1]} else {}
  }

  // The operation holds no node that was retired before it began.
  ghost predicate FreshAt(run: seq<Tower.State>, i: int, t: Tid, p: Ptr) {
    && 0 <= i < |run| && t in run[i].base.threads && t in run[i].regs && Active(run[i].base.threads[t])
    && run[i].base.threads[t].begin < |run| && p in Held(run[i].base.threads[t], run[i].regs[t]) ==>
      p !in run[run[i].base.threads[t].begin].base.g.retired
  }

  ghost predicate HoldsFresh(run: seq<Tower.State>) {
    forall i, t, p {:trigger FreshAt(run, i, t, p)} :: FreshAt(run, i, t, p)
  }

  // ---------------------------------------------------------------------------
  // One level or one thread keeps them
  // ---------------------------------------------------------------------------

  lemma CleanOffBottom(m: nat, run: seq<Tower.State>)
    requires Tower.Behavior(m, run) && Clean(run)
    ensures OffBottom(run)
  {
    hide Tower.Behavior, Clean, Reachable;
    forall i, v ensures OffAt(run, i, 0, v) {
      if 0 <= i < |run| { CleanRunsReclaim(m, run, i); }
    }
  }

  lemma {:induction false} WalkOnLevel(m: nat, nodes: Heap, up: Towers, chains: Chains, l: nat, w: seq<Ptr>, i: nat)
    requires ChainsOk(m, nodes, up, chains) && 1 <= l <= m && UpWalk(up, l, w) && w[0] == HEAD && i < |w|
    ensures OnLevel(chains, l, w[i])
  {
    hide ChainOk;
    assert ChainAt(nodes, up, chains, l);
    if i == 0 {
      ChainEnds(nodes, up, chains[l - 1], l);
    } else {
      WalkOnLevel(m, nodes, up, chains, l, w, i - 1);
      ChainNext(nodes, up, chains[l - 1], l, w[i - 1]);
    }
  }

  lemma RetiredIsMarked(g: Shared, th: Thread, v: Ptr)
    requires ListInv(g) && ThreadOk(g, th) && v in g.retired
    ensures v in g.nodes && g.nodes[v].marked && v != HEAD && v != TAIL && v != Victim(th.pc)
  {
    var k :| 0 <= k < |g.retired| && g.retired[k] == v;
  }

  // What is on a level is not retired.
  lemma MemberNotRetired(m: nat, g: Shared, th: Thread, reg: Reg, up: Towers, chains: Chains, l: nat, p: Ptr)
    requires ListInv(g) && ThreadOk(g, th) && Tidy(m, g, th, reg, up, chains) && OnLevel(chains, l, p)
    ensures p !in g.retired
  {
    hide ListInv, ThreadOk, ChainsOk, ThreadTidy;
    assert Member(g.nodes, up, th.pc, reg.phase, l, p);
    if p in g.retired { RetiredIsMarked(g, th, p); }
  }

  lemma SoloOffLevel(m: nat, run: seq<Tower.State>, i: nat, t: Tid, l: nat, v: Ptr)
    requires Tower.Behavior(m, run) && i < |run| && run[0].base.threads.Keys == {t} && 1 <= l <= m
    ensures OffAt(run, i, l, v)
  {
    hide Tower.Behavior, ListInv, ThreadOk, ChainsOk, MembersOk, ThreadTidy;
    var s := run[i];
    var chains := AlwaysTidy(m, run, i, t);
    BaseInv(m, run, i);
    assert ListInv(s.base.g) && ThreadOk(s.base.g, s.base.threads[t]);
    if v in s.base.g.retired && Linked(s, l, v) {
      var w :| UpWalk(s.up, l, w) && w[0] == HEAD && w[|w| - 1] == v;
      WalkOnLevel(m, s.base.g.nodes, s.up, chains, l, w, |w| - 1);
      MemberNotRetired(m, s.base.g, s.base.threads[t], s.regs[t], s.up, chains, l, v);
    }
  }

  lemma RetiredEarlier(m: nat, run: seq<Tower.State>, j: nat, i: nat, p: Ptr)
    requires Tower.Behavior(m, run) && j <= i < |run| && p !in run[i].base.g.retired
    ensures p !in run[j].base.g.retired
  {
    BaseRun(m, run);
    BottomHandover.RetiredGrows(Bases(run), j, i);
  }

  // A node that was on the chain since the operation began was not retired then.
  lemma LinkedSince(m: nat, run: seq<Tower.State>, begin: nat, i: nat, p: Ptr)
    requires Tower.Behavior(m, run) && Clean(run) && i < |run| && WasLinked(Bases(run), begin, i, p)
    ensures begin < |run| && p !in run[begin].base.g.retired
  {
    hide Tower.Behavior, Clean, Shape, CellsOk;
    var j: nat :| Within(Bases(run), begin, j, i) && p in Bases(run)[j].g.linked;
    BaseInv(m, run, j);
    AlwaysClean(m, run, j);
    RetiredEarlier(m, run, begin, j, p);
  }

  // Pointers on level 0, and where the search is to go down.
  lemma LowFresh(m: nat, run: seq<Tower.State>, i: nat, t: Tid, p: Ptr)
    requires Tower.Behavior(m, run) && Clean(run) && i < |run| && t in run[i].base.threads
    requires Active(run[i].base.threads[t])
    requires p in BottomReclaim.Pointers(run[i].base.threads[t].pc) + Start(run[i].base.threads[t].pc)
    ensures run[i].base.threads[t].begin < |run| && p !in run[run[i].base.threads[t].begin].base.g.retired
  {
    hide Tower.Behavior, Clean, BottomReclaim.Pointers, Deeds, WasLinked, Reachable;
    var th := run[i].base.threads[t];
    BaseRun(m, run);
    var bases := Bases(run);
    ClockIsIndex(bases, i);
    AlwaysWitnessed(bases, i, t);
    AlwaysClean(m, run, i);
    if p in Start(th.pc) {
      assert CleanThread(run[i].up, th, run[i].regs[t]);
      assert WasLinked(bases, th.begin, i, p);
    } else {
      CleanRunsReclaim(m, run, i);
    }
    LinkedSince(m, run, th.begin, i, p);
  }

  // Alone, an operation holds nothing on the upper levels that is retired.
  lemma HighFresh(m: nat, g: Shared, th: Thread, reg: Reg, up: Towers, chains: Chains, p: Ptr)
    requires MoverOk(m, g, th, reg, up) && Tidy(m, g, th, reg, up, chains) && Active(th)
    requires p in Held(th, reg) && !reg.phase.Below? && p !in Start(th.pc)
    ensures p !in g.retired
  {
    hide ListInv, ThreadOk, TowersOk, Noted, ChainOk;
    if p in g.retired { RetiredIsMarked(g, th, p); }
    match reg.phase
    case Walk(level, curr) => MemberNotRetired(m, g, th, reg, up, chains, level, curr);
    case Cut(level, curr, succ) =>
      assert ChainAt(g.nodes, up, chains, level);
      ChainEnds(g.nodes, up, chains[level - 1], level);
      ChainNext(g.nodes, up, chains[level - 1], level, curr);
      MemberNotRetired(m, g, th, reg, up, chains, level, curr);
      MemberNotRetired(m, g, th, reg, up, chains, level, succ);
    case Store(level) => BesideFresh(m, g, th, reg, up, chains, level);
    case Join(level) => BesideFresh(m, g, th, reg, up, chains, level);
    case _ =>
  }

  lemma BesideFresh(m: nat, g: Shared, th: Thread, reg: Reg, up: Towers, chains: Chains, level: nat)
    requires MoverOk(m, g, th, reg, up) && Tidy(m, g, th, reg, up, chains) && Active(th)
    requires (reg.phase.Store? || reg.phase.Join?) && reg.phase.level == level
    ensures 1 <= level <= |reg.preds| && level <= |reg.succs|
    ensures reg.preds[level - 1] !in g.retired && reg.succs[level - 1] !in g.retired
  {
    hide ListInv, ThreadOk, TowersOk, Noted, ChainOk;
    assert BesideAt(g.nodes, chains, th.key, reg, level);
    MemberNotRetired(m, g, th, reg, up, chains, level, reg.preds[level - 1]);
    MemberNotRetired(m, g, th, reg, up, chains, level, reg.succs[level - 1]);
  }

  lemma FlatHolds(m: nat, up: Towers, nodes: Heap, th: Thread, reg: Reg, p: Ptr)
    requires m == 0 && TowersOk(m, nodes, up) && RegOk(m, up, th.pc, reg) && p in Held(th, reg)
    ensures p in BottomReclaim.Pointers(th.pc) + Start(th.pc)
  {
    hide BottomReclaim.Pointers;
  }

  lemma Fresh(m: nat, run: seq<Tower.State>, i: nat, t: Tid, p: Ptr)
    requires Tower.Behavior(m, run) && Clean(run) && (m == 0 || run[0].base.threads.Keys == {t}) && i < |run|
    ensures FreshAt(run, i, t, p)
  {
    hide Clean, BottomReclaim.Pointers, ListInv, ThreadOk, TowersOk, Tidy, RegOk, Tower.Init, Tower.StepAt;
    var s := run[i];
    if t in s.base.threads && t in s.regs && Active(s.base.threads[t]) && p in Held(s.base.threads[t], s.regs[t]) {
      var th, reg := s.base.threads[t], s.regs[t];
      BaseInv(m, run, i);
      AlwaysUp(m, run, i);
      assert ThreadUp(m, s, t);
      if m == 0 { FlatHolds(m, s.up, s.base.g.nodes, th, reg, p); }
      if p in BottomReclaim.Pointers(th.pc) + Start(th.pc) {
        LowFresh(m, run, i, t, p);
      } else {
        var chains := AlwaysTidy(m, run, i, t);
        assert ListInv(s.base.g) && ThreadOk(s.base.g, th);
        HighFresh(m, s.base.g, th, reg, s.up, chains, p);
        BeganBefore(m, run, i, t);
        RetiredEarlier(m, run, th.begin, i, p);
      }
    }
  }

  lemma BeganBefore(m: nat, run: seq<Tower.State>, i: nat, t: Tid)
    requires Tower.Behavior(m, run) && i < |run| && t in run[i].base.threads && Active(run[i].base.threads[t])
    ensures run[i].base.threads[t].begin <= i
  {
    hide Tower.Behavior, Windows, Deeds;
    BaseRun(m, run);
    ClockIsIndex(Bases(run), i);
    AlwaysWitnessed(Bases(run), i, t);
  }

  lemma RetiredBySomebody(m: nat, run: seq<Tower.State>, i: nat, v: Ptr) returns (t: Tid)
    requires Tower.Behavior(m, run) && i < |run| && v in run[i].base.g.retired
    ensures t in run[0].base.threads
  {
    hide Ready, Effect;
    assert Tower.StepAt(m, run, i - 1);
    var a;
    t, a :| Tower.Next(m, run[i - 1], t, a, run[i]);
    BaseRun(m, run);
    ClockIsIndex(Bases(run), i - 1);
  }

  lemma FlatOrAloneIsSafe(m: nat, run: seq<Tower.State>)
    requires Tower.Behavior(m, run) && (m == 0 || |run[0].base.threads| <= 1)
    ensures OffBottom(run) && OffLevels(m, run) && HoldsFresh(run)
  {
    hide Clean, Linked, Tower.Init, Tower.StepAt;
    FlatOrAloneIsClean(m, run);
    CleanOffBottom(m, run);
    forall i, l: nat, v | l <= m ensures OffAt(run, i, l, v) {
      if l >= 1 && 0 <= i < |run| && v in run[i].base.g.retired {
        var t := RetiredBySomebody(m, run, i, v);
        OnlyOne(run[0].base.threads.Keys, t);
        SoloOffLevel(m, run, i, t, l, v);
      } else if l == 0 {
        assert OffAt(run, i, 0, v);
      }
    }
    forall i, t, p ensures FreshAt(run, i, t, p) {
      if 0 <= i < |run| && t in run[i].base.threads {
        BaseRun(m, run);
        ClockIsIndex(Bases(run), i);
        if m > 0 { OnlyOne(run[0].base.threads.Keys, t); }
        Fresh(m, run, i, t, p);
      }
    }
  }

  // ---------------------------------------------------------------------------
  // Exactly one level or one thread
  // ---------------------------------------------------------------------------

  ghost predicate Among(m: nat, ts: set<Tid>, run: seq<Tower.State>) {
    Tower.Behavior(m, run) && run[0].base.threads.Keys == ts
  }

  lemma SafeAmong(m: nat, ts: set<Tid>, run: seq<Tower.State>)
    requires Among(m, ts, run) && (m == 0 || |ts| <= 1)
    ensures OffBottom(run) && OffLevels(m, run) && HoldsFresh(run)
  {
    hide OffBottom, OffLevels, HoldsFresh;
    assert |run[0].base.threads| == |ts|;
    FlatOrAloneIsSafe(m, run);
  }

  lemma UnsafeBottom(m: nat, ts: set<Tid>) returns (run: seq<Tower.State>)
    requires m >= 1 && |ts| > 1
    ensures Among(m, ts, run) && !OffBottom(run) && !OffLevels(m, run)
  {
    hide Reachable;
    var t, u := TwoOf(ts);
    run := TowerRetire.RetiredReachable(m, ts, t, u, 0.0, 1.0, 0, 0);
    assert !OffAt(run, |run| - 1, 0, TowerStory.NEW);
  }

  lemma UnsafeHeld(m: nat, ts: set<Tid>) returns (run: seq<Tower.State>)
    requires m >= 1 && |ts| > 1
    ensures Among(m, ts, run) && !HoldsFresh(run)
  {
    var t, u := TwoOf(ts);
    var k, i;
    run, k, i := TowerStale.WrongAnswer(m, ts, t, u, 0.0, 1.0, 0, 0);
    assert !FreshAt(run, i, u, TowerStory.OLD);
  }

  // In every run head leads to no retired node on level 0 ...
  lemma UnreachableIffFlatOrAlone(m: nat, ts: set<Tid>)
    ensures (forall run {:trigger OffBottom(run)} :: Among(m, ts, run) ==> OffBottom(run)) <==> (m == 0 || |ts| <= 1)
  {
    hide OffBottom, Among;
    if m == 0 || |ts| <= 1 {
      forall run | Among(m, ts, run) ensures OffBottom(run) { SafeAmong(m, ts, run); }
    } else {
      var run := UnsafeBottom(m, ts);
    }
  }

  // ... and on no level ...
  lemma OffLevelsIffFlatOrAlone(m: nat, ts: set<Tid>)
    ensures (forall run {:trigger OffLevels(m, run)} :: Among(m, ts, run) ==> OffLevels(m, run)) <==>
            (m == 0 || |ts| <= 1)
  {
    hide OffLevels, Among;
    if m == 0 || |ts| <= 1 {
      forall run | Among(m, ts, run) ensures OffLevels(m, run) { SafeAmong(m, ts, run); }
    } else {
      var run := UnsafeBottom(m, ts);
    }
  }

  // ... and every operation holds only nodes that had not been retired when it
  // began, if and only if the list has a single level or a single thread.
  lemma HoldsFreshIffFlatOrAlone(m: nat, ts: set<Tid>)
    ensures (forall run {:trigger HoldsFresh(run)} :: Among(m, ts, run) ==> HoldsFresh(run)) <==> (m == 0 || |ts| <= 1)
  {
    hide HoldsFresh, Among;
    if m == 0 || |ts| <= 1 {
      forall run | Among(m, ts, run) ensures HoldsFresh(run) { SafeAmong(m, ts, run); }
    } else {
      var run := UnsafeHeld(m, ts);
    }
  }

  // ---------------------------------------------------------------------------
  // Together with the epochs
  // ---------------------------------------------------------------------------

  lemma LowInNodes(g: Shared, th: Thread, p: Ptr)
    requires ListInv(g) && ThreadOk(g, th) && Active(th) && p in BottomReclaim.Pointers(th.pc) + Start(th.pc)
    ensures p in g.nodes
  {
    hide Present, Bypassed, Retired, CellsOk;
    if th.pc.Splice? { assert Up(g.nodes, th.pc.curr); }
  }

  lemma HeldInNodes(m: nat, g: Shared, th: Thread, reg: Reg, up: Towers, p: Ptr)
    requires MoverOk(m, g, th, reg, up) && Active(th) && p in Held(th, reg)
    ensures p in g.nodes
  {
    hide ListInv, ThreadOk, Noted, BottomReclaim.Pointers;
    if p in BottomReclaim.Pointers(th.pc) + Start(th.pc) {
      LowInNodes(g, th, p);
    } else if reg.phase.Store? || reg.phase.Join? {
      NotedHere(m, up, reg, reg.phase.level);
    }
  }

  // An operation runs under a guard, in a run that keeps the third promise: nothing
  // it holds, on any level, is freed.
  lemma HeldNotFreed(m: nat, run: seq<Tower.State>, ebr: seq<Ebr.State>, when: seq<nat>, others: set<Ebr.Obj>,
                     i: nat, t: Tid, guard: Ebr.Id, p: Ptr)
    requires Tower.Behavior(m, run) && HoldsFresh(run) && i < |run|
    requires Ebr.Behavior(ebr) && BottomReclaim.Aligned(Bases(run), ebr, when, others)
    requires t in run[i].base.threads && t in run[i].regs && Active(run[i].base.threads[t])
    requires p in Held(run[i].base.threads[t], run[i].regs[t]) && run[i].base.threads[t].begin <= i
    requires Ebr.LiveThroughout(ebr, guard, when[run[i].base.threads[t].begin], when[i])
    requires ebr[when[i]].g.epoch < Ebr.UNPINNED
    ensures p !in ebr[when[i]].g.freed
  {
    hide Tower.Behavior, Ebr.Behavior, ListInv, ThreadOk, TowersOk, RegOk, Held;
    var s, begin := run[i], run[i].base.threads[t].begin;
    BaseInv(m, run, i);
    AlwaysUp(m, run, i);
    assert ThreadUp(m, s, t);
    assert ListInv(s.base.g) && ThreadOk(s.base.g, s.base.threads[t]);
    HeldInNodes(m, s.base.g, s.base.threads[t], s.regs[t], s.up, p);
    assert FreshAt(run, i, t, p);
    assert BottomReclaim.Owned(Bases(run)[i].g, ebr[when[i]].g, others);
    assert BottomReclaim.Owned(Bases(run)[begin].g, ebr[when[begin]].g, others);
    Ebr.GracePeriod(ebr, guard, when[begin], when[i], p);
  }
}
