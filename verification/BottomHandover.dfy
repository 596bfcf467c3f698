/** Removed nodes and the length counter: each node is handed to reclamation once,
  * and is unreachable from then on unless its remover searched from a dead node;
  * `len` counts the keys.
  */
module BottomHandover {
  import opened Common
  import opened BottomList
  import opened BottomSteps
  import opened BottomRuns
  import opened BottomLinear

  // ---------------------------------------------------------------------------
  // Hand-over to reclamation
  // ---------------------------------------------------------------------------

  lemma {:induction false} RetiredGrows(run: seq<State>, i: nat, j: nat)
    requires Behavior(run) && i <= j < |run|
    ensures run[i].g.retired <= run[j].g.retired
  {
    if i < j {
      RetiredGrows(run, i, j - 1);
      assert StepAt(run, j - 1);
      AlwaysInv(run, j - 1);
      var t, a :| Next(run[j - 1], t, a, run[j]);
      ListKept(run[j - 1].g, run[j - 1].threads[t], a);
    }
  }

  // At step `j` thread `t` handed `v` over, after a search for `v` that entered
  // level 0 at a node which had not been on the chain since `t` marked `v`.
  ghost predicate Rushes(run: seq<State>, i: nat, v: Ptr, j: nat, t: Tid) {
    && j < i < |run| && t in run[j].threads && run[j].threads[t].pc == Retire(v)
    && run[j].threads[t].point >= 0 && DeadStart(run, t, run[j].threads[t].point, j)
  }

  ghost predicate Rushed(run: seq<State>, i: nat, v: Ptr) {
    exists j, t :: Rushes(run, i, v, j, t)
  }

  lemma RushedStep(s: State, t: Tid, a: Action, s': State, v: Ptr)
    requires Next(s, t, a, s') && v in s'.g.rushed && v !in s.g.rushed
    ensures s.threads[t].pc == Retire(v) && s.threads[t].stale
  {
  }

  lemma RushesNow(run: seq<State>, i: nat, v: Ptr, t: Tid)
    requires Behavior(run) && i + 1 < |run| && t in run[i].threads
    requires run[i].threads[t].pc == Retire(v) && run[i].threads[t].stale
    ensures Rushes(run, i + 1, v, i, t)
  {
    hide Behavior, ListInv, DeadStart, Complete;
    AlwaysInv(run, i);
    ClockIsIndex(run, i);
    AlwaysStarts(run, i, t);
    var th := run[i].threads[t];
    assert ListInv(run[i].g) && ThreadOk(run[i].g, th);
    Data(run[i].g);
  }

  lemma {:induction false} RushedMeans(run: seq<State>, i: nat, v: Ptr)
    requires Behavior(run) && i < |run| && v in run[i].g.rushed
    ensures Rushed(run, i, v)
  {
    hide DeadStart;
    if i > 0 {
      if v in run[i - 1].g.rushed {
        RushedMeans(run, i - 1, v);
        var j, t :| Rushes(run, i - 1, v, j, t);
        assert Rushes(run, i, v, j, t);
      } else {
        assert StepAt(run, i - 1);
        var t, a :| Next(run[i - 1], t, a, run[i]);
        RushedStep(run[i - 1], t, a, run[i], v);
        RushesNow(run, i - 1, v, t);
      }
    }
  }

  // A node is handed to `retire` at most once, and from then on no walk along
  // the bottom level reaches it, unless the search before the hand-over started
  // at a dead node.
  lemma RetiredOnceAndUnreachable(run: seq<State>, i: nat, j: nat, k: nat)
    requires Behavior(run) && i <= j < |run| && k < |run[i].g.retired|
    ensures var v := run[i].g.retired[k];
            && k < |run[j].g.retired| && run[j].g.retired[k] == v
            && (!Reachable(run[j].g.nodes, v) || Rushed(run, j, v))
            && forall m :: 0 <= m < |run[j].g.retired| && run[j].g.retired[m] == v ==> m == k
  {
    hide Reachable, Rushed;
    var v := run[i].g.retired[k];
    RetiredGrows(run, i, j);
    AlwaysInv(run, j);
    ReachableIffLinked(run, j, v);
    if v in run[j].g.rushed { RushedMeans(run, j, v); }
  }

  // Two removers never win the same node, and nobody wins a retired one.  A winner
  // counts and hands over only what its search found unreachable, unless that
  // search started at a dead node.
  lemma OneWinner(run: seq<State>, i: nat, t: Tid, u: Tid)
    requires Behavior(run) && i < |run| && t in run[i].threads && u in run[i].threads
    requires Victim(run[i].threads[t].pc) != NULL
    ensures Victim(run[i].threads[t].pc) == Victim(run[i].threads[u].pc) ==> t == u
    ensures Victim(run[i].threads[t].pc) !in run[i].g.retired && run[i].threads[t].point >= 0
    ensures run[i].threads[t].pc.CountSub? || run[i].threads[t].pc.Retire? ==>
              || !Reachable(run[i].g.nodes, Victim(run[i].threads[t].pc))
              || DeadStart(run, t, run[i].threads[t].point, i)
  {
    hide Reachable, DeadStart, Complete;
    AlwaysInv(run, i);
    ClockIsIndex(run, i);
    AlwaysStarts(run, i, t);
    ReachableIffLinked(run, i, Victim(run[i].threads[t].pc));
    assert ThreadOk(run[i].g, run[i].threads[t]);
  }

  // ---------------------------------------------------------------------------
  // Every removed node is handed over
  // ---------------------------------------------------------------------------

  // The node a winning remove marked at its point is its victim until it is handed over.
  ghost predicate Handed(run: seq<State>, i: nat, t: Tid)
    requires i < |run| && t in run[i].threads
  {
    var th := run[i].threads[t];
    HasDropped(th.pc) ==>
      && 0 <= th.point < i && t in run[th.point].threads && run[th.point].threads[t].pc.Mark?
      && var v := run[th.point].threads[t].pc.node;
         if th.pc.Returned? then v in run[i].g.retired else Victim(th.pc) == v
  }

  // The step leaves the victim, unless it hands it over.
  lemma VictimMoves(g: Shared, th: Thread, a: Action)
    requires Enabled(g, th, a) && !a.Begin? && ThreadOk(g, th) && ListInv(g)
    ensures
      var (th', g') := Outcome(g, th, a);
      && g.retired <= g'.retired
      && (HasDropped(th'.pc) ==>
            if Victim(th.pc) == NULL then
              Marks(g, th, a) && th'.point == g.clock && Victim(th'.pc) == th.pc.node && !th'.pc.Returned?
            else
              && th'.point == th.point
              && if th'.pc.Returned? then Victim(th.pc) in g'.retired else Victim(th'.pc) == Victim(th.pc))
  {
    hide ListInv, ThreadOk, AfterLoad, CasOk, Counted;
    RealNodes(g, th);
    if a.Go? && th.pc.Load? { AfterLoadVictim(th, g.nodes[th.pc.curr]); }
  }

  lemma AfterLoadVictim(th: Thread, node: Node)
    requires th.pc.Load?
    ensures var pc := AfterLoad(th, node); Victim(pc) == Victim(th.pc) && pc != Returned(Remove, true)
  {
  }

  lemma HandedStep(run: seq<State>, i: nat, t: Tid, u: Tid, a: Action)
    requires Behavior(run) && i + 1 < |run| && t in run[i].threads && Next(run[i], u, a, run[i + 1])
    requires Handed(run, i, t) && Inv(run[i])
    ensures t in run[i + 1].threads && Handed(run, i + 1, t)
  {
    hide Behavior, ListInv, ThreadOk, Enabled, Outcome, CasOk;
    var g, th := run[i].g, run[i].threads[u];
    assert ListInv(g) && ThreadOk(g, th);
    ClockIsIndex(run, i);
    if !a.Begin? {
      VictimMoves(g, th, a);
      if u == t { DroppedStays(g, th, a); }
    } else {
      BeginsAfresh(g, th, a);
    }
  }

  lemma DroppedStays(g: Shared, th: Thread, a: Action)
    requires Enabled(g, th, a) && !a.Begin?
    ensures Active(th) && (Marks(g, th, a) ==> th.pc.Mark?)
  {
  }

  lemma BeginsAfresh(g: Shared, th: Thread, a: Action)
    requires Enabled(g, th, a) && a.Begin?
    ensures var (th', g') := Outcome(g, th, a); !HasDropped(th'.pc) && g'.retired == g.retired
  {
  }

  lemma {:induction false} AlwaysHanded(run: seq<State>, i: nat, t: Tid)
    requires Behavior(run) && i < |run| && t in run[i].threads
    ensures Handed(run, i, t)
  {
    hide Next, Handed, Inv;
    if i == 0 {
      HandedAtStart(run, t);
    } else {
      assert StepAt(run, i - 1);
      var u, a :| Next(run[i - 1], u, a, run[i]);
      AlwaysInv(run, i - 1);
      SameThreads(run[i - 1], u, a, run[i]);
      AlwaysHanded(run, i - 1, t);
      HandedStep(run, i - 1, t, u, a);
    }
  }

  lemma SameThreads(s: State, u: Tid, a: Action, s': State)
    requires Next(s, u, a, s')
    ensures s'.threads.Keys == s.threads.Keys
  {
  }

  lemma HandedAtStart(run: seq<State>, t: Tid)
    requires Behavior(run) && t in run[0].threads
    ensures Handed(run, 0, t)
  {
  }

  // A remove that has returned true has handed over the node it marked.
  lemma RemovedIsRetired(run: seq<State>, i: nat, t: Tid)
    requires Behavior(run) && i < |run| && t in run[i].threads && run[i].threads[t].pc == Returned(Remove, true)
    ensures
      var m := run[i].threads[t].point;
      && 0 <= m < i && t in run[m].threads && run[m].threads[t].pc.Mark?
      && run[m].threads[t].pc.node in run[i].g.retired
  {
    AlwaysHanded(run, i, t);
  }

  // A remover of `v` is under way.
  ghost predicate Underway(threads: map<Tid, Thread>, v: Ptr) {
    exists t :: t in threads && Victim(threads[t].pc) == v
  }

  // Nothing leaks: every marked node has been handed over, or its remover is under way.
  lemma {:induction false} NothingLeaks(run: seq<State>, i: nat, v: Ptr)
    requires Behavior(run) && i < |run| && v in run[i].g.nodes && run[i].g.nodes[v].marked
    ensures v in run[i].g.retired || Underway(run[i].threads, v)
  {
    hide Next, Inv;
    assert i > 0;
    assert StepAt(run, i - 1);
    var u, a :| Next(run[i - 1], u, a, run[i]);
    AlwaysInv(run, i - 1);
    var s := run[i - 1];
    if v in s.g.nodes && s.g.nodes[v].marked { NothingLeaks(run, i - 1, v); }
    LeakStep(s, u, a, run[i], v);
  }

  lemma LeakStep(s: State, u: Tid, a: Action, s': State, v: Ptr)
    requires Inv(s) && Next(s, u, a, s') && v in s'.g.nodes && s'.g.nodes[v].marked
    requires v in s.g.nodes && s.g.nodes[v].marked ==> v in s.g.retired || Underway(s.threads, v)
    ensures v in s'.g.retired || Underway(s'.threads, v)
  {
    hide ListInv, ThreadOk, Enabled, Outcome, CasOk;
    var g, th := s.g, s.threads[u];
    assert ListInv(g) && ThreadOk(g, th);
    Data(g);
    MarkedBy(g, th, a, v);
    if v in g.nodes && g.nodes[v].marked {
      if v !in g.retired {
        var t :| t in s.threads && Victim(s.threads[t].pc) == v;
        if t != u { assert Victim(s'.threads[t].pc) == v; } else { assert s'.threads[u].pc == Outcome(g, th, a).0.pc; }
      }
    } else {
      assert Victim(s'.threads[u].pc) == v;
    }
  }

  // Who is responsible for a marked node after the step.
  lemma MarkedBy(g: Shared, th: Thread, a: Action, v: Ptr)
    requires Enabled(g, th, a) && ThreadOk(g, th) && ListInv(g)
    ensures
      var (th', g') := Outcome(g, th, a);
      && g.retired <= g'.retired
      && (v in g.nodes && g.nodes[v].marked && Victim(th.pc) == v ==> v in g'.retired || Victim(th'.pc) == v)
      && (v in g'.nodes && g'.nodes[v].marked && !(v in g.nodes && g.nodes[v].marked) ==> Victim(th'.pc) == v)
  {
    hide ListInv, ThreadOk, AfterLoad, Counted;
    Data(g);
    RealNodes(g, th);
    if a.Go? && th.pc.Load? { AfterLoadVictim(th, g.nodes[th.pc.curr]); }
  }

  // With no operation in progress exactly the removed nodes have been handed over.
  lemma AllHandedWhenQuiet(run: seq<State>, i: nat, v: Ptr)
    requires Behavior(run) && i < |run| && v in run[i].g.nodes
    requires forall t :: t in run[i].threads ==> !Active(run[i].threads[t])
    ensures v in run[i].g.retired <==> run[i].g.nodes[v].marked
  {
    hide Behavior, Shape;
    AlwaysInv(run, i);
    Data(run[i].g);
    if run[i].g.nodes[v].marked { NothingLeaks(run, i, v); }
  }

  // ---------------------------------------------------------------------------
  // The length counter
  // ---------------------------------------------------------------------------

  // Inserts that have published and not yet counted, removes that have marked
  // and not yet counted.
  function Adding(threads: map<Tid, Thread>): set<Tid> {
    set t | t in threads && Add(threads[t].pc)
  }

  function Dropping(threads: map<Tid, Thread>): set<Tid> {
    set t | t in threads && Drop(threads[t].pc)
  }

  ghost predicate LenInv(s: State) {
    s.g.len == Tally(s) % WORD
  }

  predicate Counts(a: Action, th: Thread, up: bool) {
    a.Go? && if up then th.pc.CountAdd? else th.pc.CountSub?
  }

  // Settling the history variables moves no program counter but the mover's.
  ghost predicate PcsMove(threads: map<Tid, Thread>, t: Tid, pc: Pc, threads': map<Tid, Thread>) {
    && t in threads && threads'.Keys == threads.Keys && threads'[t].pc == pc
    && forall u :: u in threads && u != t ==> threads'[u].pc == threads[u].pc
  }

  lemma SettleMovesPcs(threads: map<Tid, Thread>, t: Tid, th: Thread, nodes: Heap, linked: set<Ptr>)
    requires t in threads
    ensures PcsMove(threads, t, th.pc, Settle(threads, t, th, nodes, linked))
  {
  }

  lemma AddingAfter(threads: map<Tid, Thread>, t: Tid, pc: Pc, threads': map<Tid, Thread>)
    requires PcsMove(threads, t, pc, threads')
    ensures |Adding(threads')| ==
              |Adding(threads)| - One(Add(threads[t].pc)) + One(Add(pc))
  {
    assert Adding(threads') == if Add(pc) then Adding(threads) + {t} else Adding(threads) - {t};
  }

  lemma DroppingAfter(threads: map<Tid, Thread>, t: Tid, pc: Pc, threads': map<Tid, Thread>)
    requires PcsMove(threads, t, pc, threads')
    ensures |Dropping(threads')| ==
              |Dropping(threads)| - One(Drop(threads[t].pc)) + One(Drop(pc))
  {
    assert Dropping(threads') == if Drop(pc) then Dropping(threads) + {t} else Dropping(threads) - {t};
  }

  predicate Add(pc: Pc) {
    pc.CountAdd? || Helping(pc)
  }

  predicate Drop(pc: Pc) {
    Victim(pc) != NULL && !pc.Retire?
  }

  lemma CountersMove(g: Shared, th: Thread, a: Action)
    requires Enabled(g, th, a) && NULL !in g.nodes && (th.pc.CountSub? ==> th.pc.node != NULL)
    ensures var th' := Outcome(g, th, a).0;
            && (Publishes(g, th, a) ==> !Add(th.pc) && Add(th'.pc))
            && (Counts(a, th, true) ==> Add(th.pc) && !Add(th'.pc))
            && (!Publishes(g, th, a) && !Counts(a, th, true) ==> Add(th'.pc) == Add(th.pc))
  {
    hide AfterLoad, Counted;
    if a.Go? && th.pc.Load? { AfterLoadCounts(th, g.nodes[th.pc.curr]); }
  }

  lemma DropsMove(g: Shared, th: Thread, a: Action)
    requires Enabled(g, th, a) && NULL !in g.nodes && (th.pc.CountSub? ==> th.pc.node != NULL)
    ensures var th' := Outcome(g, th, a).0;
            && (Marks(g, th, a) ==> !Drop(th.pc) && Drop(th'.pc))
            && (Counts(a, th, false) ==> Drop(th.pc) && !Drop(th'.pc))
            && (!Marks(g, th, a) && !Counts(a, th, false) ==> Drop(th'.pc) == Drop(th.pc))
  {
    hide AfterLoad, Counted;
    if a.Go? && th.pc.Load? { AfterLoadCounts(th, g.nodes[th.pc.curr]); }
  }

  lemma AfterLoadCounts(th: Thread, node: Node)
    requires th.pc.Load?
    ensures Add(AfterLoad(th, node)) == Add(th.pc) && Drop(AfterLoad(th, node)) == Drop(th.pc)
  {
  }

  lemma KeysMove(s: State, t: Tid, a: Action, s': State)
    requires Inv(s) && Next(s, t, a, s')
    ensures |Keys(s'.g.nodes)| ==
              |Keys(s.g.nodes)| + One(Publishes(s.g, s.threads[t], a)) - One(Marks(s.g, s.threads[t], a))
    ensures s'.g.len == if Counts(a, s.threads[t], true) then (s.g.len + 1) % WORD
                        else if Counts(a, s.threads[t], false) then (s.g.len - 1) % WORD else s.g.len
  {
    KeySetStep(s, t, a, s');
  }

  function One(b: bool): int { if b then 1 else 0 }

  lemma Wraps(x: int, len: nat, up: bool, down: bool, len': nat)
    requires len == x % WORD && !(up && down)
    requires len' == if up then (len + 1) % WORD else if down then (len - 1) % WORD else len
    ensures len' == (x + One(up) - One(down)) % WORD
  {
  }

  lemma TalliesMove(s: State, t: Tid, a: Action, s': State)
    requires Next(s, t, a, s')
    requires NULL !in s.g.nodes && (s.threads[t].pc.CountSub? ==> s.threads[t].pc.node != NULL)
    ensures |Adding(s'.threads)| ==
              |Adding(s.threads)| + One(Publishes(s.g, s.threads[t], a)) - One(Counts(a, s.threads[t], true))
    ensures |Dropping(s'.threads)| ==
              |Dropping(s.threads)| + One(Marks(s.g, s.threads[t], a)) - One(Counts(a, s.threads[t], false))
  {
    var (th', g') := Outcome(s.g, s.threads[t], a);
    CountersMove(s.g, s.threads[t], a);
    DropsMove(s.g, s.threads[t], a);
    SettleMovesPcs(s.threads, t, th', g'.nodes, g'.linked);
    AddingAfter(s.threads, t, th'.pc, s'.threads);
    DroppingAfter(s.threads, t, th'.pc, s'.threads);
  }

  lemma VictimOfCount(g: Shared, th: Thread)
    requires ListInv(g) && ThreadOk(g, th) && th.pc.CountSub?
    ensures th.pc.node != NULL
  {
  }

  // The quantity that `len` stands for, modulo the word size.
  ghost function Tally(s: State): int {
    |Keys(s.g.nodes)| + |Dropping(s.threads)| - |Adding(s.threads)|
  }

  ghost predicate TallyStep(s: State, s': State, up: bool, down: bool) {
    && !(up && down)
    && Tally(s') == Tally(s) + One(up) - One(down)
    && s'.g.len == if up then (s.g.len + 1) % WORD else if down then (s.g.len - 1) % WORD else s.g.len
  }

  lemma TallyMoves(s: State, t: Tid, a: Action, s': State)
    requires Inv(s) && Next(s, t, a, s')
    ensures TallyStep(s, s', Counts(a, s.threads[t], true), Counts(a, s.threads[t], false))
  {
    assert s.threads[t].pc.CountSub? ==> s.threads[t].pc.node != NULL by {
      if s.threads[t].pc.CountSub? { VictimOfCount(s.g, s.threads[t]); }
    }
    KeysMove(s, t, a, s');
    TalliesMove(s, t, a, s');
  }

  lemma LenStep(s: State, s': State, up: bool, down: bool)
    requires TallyStep(s, s', up, down) && LenInv(s)
    ensures LenInv(s')
  {
    Wraps(Tally(s), s.g.len, up, down, s'.g.len);
  }

  lemma LenAtStart(s: State)
    requires Init(s)
    ensures LenInv(s)
  {
    assert forall p, k :: !Holds(s.g.nodes, p, k);
    assert Keys(s.g.nodes) == {};
    assert Adding(s.threads) == {} && Dropping(s.threads) == {};
  }

  lemma {:induction false} AlwaysLen(run: seq<State>, i: nat)
    requires Behavior(run) && i < |run|
    ensures LenInv(run[i])
  {
    if i == 0 {
      LenAtStart(run[0]);
    } else {
      AlwaysLen(run, i - 1);
      AlwaysInv(run, i - 1);
      assert StepAt(run, i - 1);
      var t, a :| Next(run[i - 1], t, a, run[i]);
      TallyMoves(run[i - 1], t, a, run[i]);
      LenStep(run[i - 1], run[i], Counts(a, run[i - 1].threads[t], true), Counts(a, run[i - 1].threads[t], false));
    }
  }

  // With no operation in progress, `len` is the number of keys.
  lemma LenExactWhenQuiet(run: seq<State>, i: nat)
    requires Behavior(run) && i < |run| && |Keys(run[i].g.nodes)| < WORD
    requires forall t :: t in run[i].threads ==> !Active(run[i].threads[t])
    ensures run[i].g.len == |Keys(run[i].g.nodes)|
  {
    AlwaysLen(run, i);
    assert Adding(run[i].threads) == {} && Dropping(run[i].threads) == {};
  }
}
