/** The answers are right in every run exactly when the list has one level or one
  * thread: a run of two threads in which `get` misses a key that is there.
  */
module TowerStale {
  import opened BottomList
  import opened BottomRuns
  import opened BottomLinear
  import opened Tower
  import opened TowerClean
  import opened TowerFilm
  import opened TowerStory

  // The second thread's get has not found `y`.
  predicate Missed(x: real, y: real, begin: nat, sc: Scene) {
    && sc.nodes == Both(x, y) && sc.two.pc == Returned(Get, false) && sc.two.key == y && sc.two.begin == begin
  }

  // On its way it was at the dead node, which had been retired before it began.
  predicate Touched(begin: nat, sc: Scene) {
    sc.two.pc.Route? && sc.two.begin == begin && sc.two.reg.phase == Walk(1, OLD)
  }

  lemma Missing(m: nat, sc: Scene, x: real, y: real) returns (film: seq<Scene>, i: nat)
    requires Haunted(m, sc) && sc.nodes == Both(x, y) && Resting(sc.two) && NEG_INF < x < y < POS_INF
    ensures From(m, film, sc) && Missed(x, y, sc.clock + 1, Last(film)) && Still(film, 0)
    ensures 1 <= i < |film| && film[1].retired == sc.retired && Touched(sc.clock + 1, film[i])
  {
    hide Shot, Plain, Both;
    BothHolds(x, y);
    var a := Start(Get, y, 0, 0);
    var s0 := Play(m, sc, false, a);
    Single(m, sc, false, a);
    var f;
    f, i := Straying(m, s0);
    Cat(m, [sc, s0], f, sc, s0, Last(f));
    film := Splicing([sc, s0], f);
    i := i + 1;
    var s1 := Last(f);
    Single(m, s1, false, Move(0));
    var s2 := Play(m, s1, false, Move(0));
    Cat(m, film, [s1, s2], sc, s1, s2);
    film := Splicing(film, [s1, s2]);
  }

  // An insert of `x` is overtaken by a remove of `x` and an insert of `y`, and then
  // links its dead node on level 1; the get of `y` starts in scene `k`, and is at
  // the dead node in scene `i`.
  lemma Story(m: nat, sc: Scene, x: real, y: real, v: Value, w: Value) returns (film: seq<Scene>, k: nat, i: nat)
    requires Opening(m, sc) && m >= 1 && NEG_INF < x < y < POS_INF
    ensures From(m, film, sc) && k < i < |film|
    ensures Missed(x, y, film[k].clock + 1, Last(film)) && Still(film, k)
    ensures OLD in film[k + 1].retired && Touched(film[k].clock + 1, film[i])
  {
    hide Opening, Missed, Touched, ShotAt, Steady, Both, Haunted;
    film := Overtaken(m, sc, x, y, v, w);
    var f := Reviving(m, Last(film));
    film := Append(m, film, f);
    k := |film| - 1;
    var mid := Last(film);
    var g, d := Missing(m, mid, x, y);
    assert Still(film, k);
    var h := Append(m, film, g);
    i := k + d;
    assert h[k] == mid && h[k + 1] == g[1] && h[i] == g[d];
    film := h;
  }

  // Two threads and an upper level suffice for a wrong answer: for any two keys
  // there is a run in which a get of the larger one answers that it is not
  // there, and it is there from before the get begins until after it has ended.
  // On its way the get is at a node that was retired before it began.
  lemma WrongAnswer(m: nat, ts: set<Tid>, t: Tid, u: Tid, x: real, y: real, v: Value, w: Value)
    returns (run: seq<Tower.State>, k: nat, i: nat)
    requires m >= 1 && t in ts && u in ts && t != u && NEG_INF < x < y < POS_INF
    ensures Tower.Behavior(m, run) && run[0].base.threads.Keys == ts && k < i < |run|
    ensures u in run[|run| - 1].base.threads
    ensures var th := run[|run| - 1].base.threads[u];
            th.pc == Returned(Get, false) && th.key == y && th.begin == k + 1
    ensures forall j :: k <= j < |run| ==> y in Contents(run[j].base.g)
    ensures OLD in run[k + 1].base.g.retired && u in run[i].base.threads && u in run[i].regs
    ensures run[i].base.threads[u].pc.Route? && run[i].base.threads[u].begin == k + 1
    ensures run[i].regs[u].phase == Walk(1, OLD)
  {
    hide Tower.Init, Contents, Tower.Behavior, ShotAt, Opening, Outset;
    var sc := OutsetIsInit(m, ts, t, u);
    var film: seq<Scene>;
    film, k, i := Story(m, sc, x, y, v, w);
    run := Filmed(m, Outset(m, ts), t, u, film);
    BaseRun(m, run);
    ClockIsIndex(Bases(run), k);
    assert Shows(run[k], t, u, film[k]) && Shows(run[k + 1], t, u, film[k + 1]) && Shows(run[i], t, u, film[i]);
    forall j | k <= j < |run| ensures y in Contents(run[j].base.g) {
      assert Shows(run[j], t, u, film[j]);
      Stocked(run[j].base.g, x, y);
    }
  }

  lemma Stocked(g: Shared, x: real, y: real)
    requires g.nodes == Both(x, y)
    ensures y in Contents(g)
  {
    assert Holds(g.nodes, NEW, y);
  }

  lemma WrongIsNotRight(m: nat, run: seq<Tower.State>, k: nat, u: Tid)
    requires Tower.Behavior(m, run) && k < |run| && u in run[|run| - 1].base.threads
    requires var th := run[|run| - 1].base.threads[u];
             && th.pc == Returned(Get, false) && th.begin == k + 1
             && forall j :: k <= j < |run| ==> th.key in Contents(run[j].base.g)
    ensures !AllRight(run)
  {
    hide Contents, Tower.Behavior;
    var last := |run| - 1;
    assert !WasAbsent(Bases(run), k + 1, last, run[last].base.threads[u].key);
    assert !RightAt(run, last, u);
  }

  // Every answer of every run is right if and only if the list has a single level
  // or a single thread.
  lemma RightIffFlatOrAlone(m: nat, ts: set<Tid>)
    ensures
      (forall run: seq<Tower.State> :: Tower.Behavior(m, run) && run[0].base.threads.Keys == ts ==> AllRight(run))
      <==> (m == 0 || |ts| <= 1)
  {
    hide Tower.Init, Tower.StepAt, AllRight, Contents;
    if m == 0 || |ts| <= 1 {
      forall run: seq<Tower.State> | Tower.Behavior(m, run) && run[0].base.threads.Keys == ts ensures AllRight(run) {
        assert |run[0].base.threads| == |ts|;
        FlatOrAloneIsClean(m, run);
        CleanRunsAreRight(m, run);
      }
    } else {
      var t, u := TwoOf(ts);
      var run, k, _ := WrongAnswer(m, ts, t, u, 0.0, 1.0, 0, 0);
      WrongIsNotRight(m, run, k, u);
    }
  }
}
