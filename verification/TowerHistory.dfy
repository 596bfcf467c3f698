/** The whole skiplist as one map: in a run in which no mark is written over there is
  * one order of all operations that keeps to real time.
  */
module TowerHistory {
  import opened BottomList
  import opened BottomRuns
  import opened BottomLinear
  import opened BottomOrder
  import opened BottomHistory
  import opened BottomCalls
  import opened Tower
  import opened TowerClean

  lemma RightBelow(run: seq<Tower.State>)
    requires AllRight(run)
    ensures AnswersRight(Bases(run))
  {
    hide Right;
    forall i, t ensures RightNow(Bases(run), i, t) { assert RightAt(run, i, t); }
  }

  // At every height and with any number of threads: all operations, each once, in
  // an order in which each answers as one map would have.
  lemma CleanOrder(m: nat, run: seq<Tower.State>)
    requires Tower.Behavior(m, run) && Clean(run)
    ensures var bases := Bases(run);
            var h := Order(bases);
            && Distinct(h) && (forall j: nat :: j in h <==> Deciding(bases, j))
            && (forall i {:trigger h[i]} :: 0 <= i < |h| ==> Fits(Replay(bases, map[], h[..i]), EventOf(bases, h[i])))
            && Replay(bases, map[], h) == Contents(run[|run| - 1].base.g)
  {
    hide AllRight, AnswersRight, Clean, Contents, Order, EventOf, Distinct, Fits;
    BaseRun(m, run);
    CleanRunsAreRight(m, run);
    RightBelow(run);
    OneOrder(Bases(run));
  }

  // Two operations, of which one had returned before the other began, are in that
  // order, and each is there with the answer it gave.
  lemma CleanRealTime(m: nat, run: seq<Tower.State>, i: nat, t: Tid, j: nat, u: Tid) returns (a: nat, b: nat)
    requires Tower.Behavior(m, run) && Clean(run) && i < |run| && j < |run|
    requires t in run[i].base.threads && run[i].base.threads[t].pc.Returned?
    requires u in run[j].base.threads && run[j].base.threads[u].pc.Returned? && i < run[j].base.threads[u].begin
    ensures var h := Order(Bases(run));
            && a < b < |h| && EventOf(Bases(run), h[a]) == Outward(run[i].base.threads[t])
            && EventOf(Bases(run), h[b]) == Outward(run[j].base.threads[u])
  {
    hide AllRight, AnswersRight, Clean, Order, EventOf, Decides;
    var bases := Bases(run);
    BaseRun(m, run);
    CleanRunsAreRight(m, run);
    RightBelow(run);
    a := Answered(bases, i, t);
    b := Answered(bases, j, u);
    OneActor(bases, Order(bases)[b], u);
    RealTimeOrder(bases, i, t, a, b);
  }

  // Step `j` of the run is a call by thread `t`.
  ghost predicate StartAt(m: nat, run: seq<Tower.State>, j: nat, t: Tid, goal: Goal, key: real, val: Value) {
    j + 1 < |run| && exists top :: Tower.Next(m, run[j], t, Start(goal, key, val, top), run[j + 1])
  }

  // A call that has returned is in the order, at a step of its own, as what it asked
  // for and what it returned.
  lemma CleanCall(m: nat, run: seq<Tower.State>, j: nat, t: Tid, goal: Goal, key: real, val: Value, i: nat)
      returns (a: nat)
    requires Tower.Behavior(m, run) && Clean(run) && StartAt(m, run, j, t, goal, key, val)
    requires j < i < |run| && t in run[i].base.threads && run[i].base.threads[t].begin == j + 1
    requires run[i].base.threads[t].pc.Returned?
    ensures
      var h, th := Order(Bases(run)), run[i].base.threads[t];
      && a < |h| && j < h[a] < i && Decides(Bases(run), h[a], t)
      && EventOf(Bases(run), h[a]) == Carried(goal, key, val, th.pc.ok, th.got)
  {
    hide AllRight, AnswersRight, Clean, Order, EventOf, Decides;
    BaseRun(m, run);
    CleanRunsAreRight(m, run);
    RightBelow(run);
    a := CallIsInOrder(Bases(run), j, t, goal, key, val, i);
  }
}
