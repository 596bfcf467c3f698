/** Retired nodes: off every level, and in no register of an operation that began
  * later, in every run exactly when the list has one level or one thread.
  */
module TowerRetire {
  import opened BottomList
  import opened BottomRuns
  import opened BottomLinear
  import opened Tower
  import opened TowerClean
  import opened TowerFilm
  import opened TowerStory
  import TowerStale

  // ---------------------------------------------------------------------------
  // A run that retires a node which head leads to
  // ---------------------------------------------------------------------------

  // `x` is dead, `y` is marked, and head leads to `y`.
  function Gone(x: real, y: real): Heap {
    Plain(NEW)[OLD := Node(x, TAIL, true)][NEW := Node(y, TAIL, true)]
  }

  lemma GoneHolds(x: real, y: real)
    ensures var nodes := Gone(x, y);
            && HEAD in nodes && nodes[HEAD] == Node(NEG_INF, NEW, false)
            && OLD in nodes && nodes[OLD] == Node(x, TAIL, true)
            && NEW in nodes && nodes[NEW] == Node(y, TAIL, true)
            && TAIL in nodes && nodes[TAIL] == Node(POS_INF, NULL, false)
  {
  }

  // The second thread has marked `y`, and searches for it to unlink it.
  predicate Condemned(m: nat, x: real, y: real, sc: Scene) {
    && sc.nodes == Gone(x, y) && Paused(m, Store(1), sc) && OLD in sc.up && sc.up[OLD] == [Link(TAIL, true)]
    && sc.two.pc == Route(Unlink(NEW), HEAD) && sc.two.key == y && sc.two.reg.top == 0 && Descending(m, sc, false, m)
  }

  lemma Condemning(m: nat, sc: Scene, x: real, y: real) returns (film: seq<Scene>)
    requires Joined(m, Store(1), x, y, sc) && m >= 1 && NEG_INF < x < y < POS_INF
    ensures From(m, film, sc) && Condemned(m, x, y, Last(film))
  {
    hide Shot;
    film := Search(m, sc, false, Remove, y, 0, 0);
    var s0 := Last(film);
    var s1 := Play(m, s0, false, Move(0));
    assert s1 == s0.(two := s0.two.(pc := LoadSucc(NEW)), clock := s0.clock + 1);
    Single(m, s0, false, Move(0));
    Cat(m, film, [s0, s1], sc, s0, s1);
    film := Splicing(film, [s0, s1]);
    var f := MarkingNew(m, s1, x, y);
    Cat(m, film, f, sc, s1, Last(f));
    film := Splicing(film, f);
  }

  lemma MarkingNew(m: nat, sc: Scene, x: real, y: real) returns (film: seq<Scene>)
    requires sc.nodes == Both(x, y) && Paused(m, Store(1), sc) && OLD in sc.up && sc.up[OLD] == [Link(TAIL, true)]
    requires NEW in sc.cells && NEG_INF < x < y < POS_INF
    requires sc.two == Mind(y, 0, LoadSucc(NEW), sc.two.begin, Everywhere(m, 0, NULL, 0))
    ensures From(m, film, sc) && Condemned(m, x, y, Last(film))
  {
    hide Shot;
    var s1 := Play(m, sc, false, Move(0));
    assert s1 == sc.(two := sc.two.(pc := Mark(NEW, TAIL)), clock := sc.clock + 1);
    var s2 := Play(m, s1, false, Move(0));
    assert s2.nodes == Gone(x, y);
    Single(m, sc, false, Move(0));
    Single(m, s1, false, Move(0));
    Cat(m, [sc, s1], [s1, s2], sc, s1, s2);
    film := Splicing([sc, s1], [s1, s2]);
  }

  // The search went past `y`, which was handed over all the same.
  predicate Dangling(x: real, y: real, sc: Scene) {
    sc.nodes == Gone(x, y) && NEW in sc.retired
  }

  lemma Passing(m: nat, sc: Scene, x: real, y: real) returns (film: seq<Scene>)
    requires sc.nodes == Gone(x, y) && NEG_INF < x < y < POS_INF
    requires sc.two.pc == Load(Unlink(NEW), OLD, TAIL) && sc.two.key == y
    requires sc.two.reg.phase.Below? && sc.two.reg.top == 0
    ensures From(m, film, sc) && Dangling(x, y, Last(film))
  {
    hide Shot, Plain, Gone;
    GoneHolds(x, y);
    var s1 := Play(m, sc, false, Move(0));
    assert s1 == sc.(two := sc.two.(pc := CountSub(NEW)), clock := sc.clock + 1);
    var s2 := Play(m, s1, false, Move(0));
    assert s2 == s1.(two := s1.two.(pc := Retire(NEW)), clock := s1.clock + 1);
    var s3 := Play(m, s2, false, Move(0));
    Single(m, sc, false, Move(0));
    Single(m, s1, false, Move(0));
    Single(m, s2, false, Move(0));
    Cat(m, [sc, s1], [s1, s2], sc, s1, s2);
    film := Splicing([sc, s1], [s1, s2]);
    Cat(m, film, [s2, s3], sc, s2, s3);
    film := Splicing(film, [s2, s3]);
  }

  // While the remove of `y` stands before its second search, the insert of `x` links
  // its dead node on level 1, and that search goes down through it.
  lemma Story(m: nat, sc: Scene, x: real, y: real, v: Value, w: Value) returns (film: seq<Scene>)
    requires Opening(m, sc) && m >= 1 && NEG_INF < x < y < POS_INF
    ensures From(m, film, sc) && Dangling(x, y, Last(film))
  {
    hide Opening, Joined, Dangling, ShotAt, Steady, Still, Gone, Haunted;
    film := Overtaken(m, sc, x, y, v, w);
    var f := Condemning(m, Last(film), x, y);
    film := Append(m, film, f);
    f := Reviving(m, Last(film));
    film := Append(m, film, f);
    GoneHolds(x, y);
    var mid := Last(film);
    HauntedSentries(m, mid);
    var g, _ := Straying(m, mid);
    film := Append(m, film, g);
    f := Passing(m, Last(film), x, y);
    film := Append(m, film, f);
  }

  lemma HauntedSentries(m: nat, sc: Scene)
    requires Haunted(m, sc)
    ensures Sentries(m, sc)
  {
  }

  // For any two keys there is a run in which a node has been retired, and head
  // still leads to it on level 0.
  lemma RetiredReachable(m: nat, ts: set<Tid>, t: Tid, u: Tid, x: real, y: real, v: Value, w: Value)
    returns (run: seq<Tower.State>)
    requires m >= 1 && t in ts && u in ts && t != u && NEG_INF < x < y < POS_INF
    ensures Tower.Behavior(m, run) && run[0].base.threads.Keys == ts
    ensures var g := run[|run| - 1].base.g; NEW in g.retired && Reachable(g.nodes, NEW)
  {
    hide Tower.Init, Tower.Behavior, ShotAt, Opening, Outset;
    var sc := OutsetIsInit(m, ts, t, u);
    var film := Story(m, sc, x, y, v, w);
    run := Filmed(m, Outset(m, ts), t, u, film);
    assert Shows(run[|run| - 1], t, u, Last(film));
    GoneHolds(x, y);
    assert BottomRuns.Walk(Gone(x, y), [HEAD, NEW]);
  }

  // ---------------------------------------------------------------------------
  // A run without a lost mark that links a retired node on level 1
  // ---------------------------------------------------------------------------

  // The first thread stores its successor before anybody marks the link.
  lemma Storing(m: nat, sc: Scene, x: real) returns (film: seq<Scene>)
    requires Waiting(m, Store(1), x, sc) && m >= 1
    ensures From(m, film, sc) && Waiting(m, Join(1), x, Last(film)) && Steady(film)
  {
    hide Shot, Plain;
    var s1 := Play(m, sc, true, Move(0));
    assert s1.up[OLD] == [Link(TAIL, false)];
    assert s1 == sc.(up := s1.up, one := sc.one.(reg := sc.one.reg.(phase := Join(1))), clock := sc.clock + 1);
    Single(m, sc, true, Move(0));
    film := [sc, s1];
  }

  // Level 1 leads to a node that has been retired, and is marked there.
  predicate Relinked(m: nat, sc: Scene) {
    && Sentries(m, sc) && m >= 1 && sc.up[HEAD][0] == Link(OLD, false) && Empty(sc, 1, m)
    && OLD in sc.up && sc.up[OLD] == [Link(TAIL, true)] && OLD in sc.retired && Resting(sc.two)
  }

  lemma Relinking(m: nat, sc: Scene, x: real) returns (film: seq<Scene>)
    requires Unlinked(m, Join(1), x, sc) && m >= 1
    ensures From(m, film, sc) && Relinked(m, Last(film)) && Steady(film)
  {
    hide Shot, Plain;
    var s1 := Play(m, sc, true, Move(0));
    assert s1.up[HEAD] == sc.up[HEAD][0 := Link(OLD, false)];
    Single(m, sc, true, Move(0));
    film := [sc, s1];
  }

  // A get that begins later goes to that node.
  lemma Touching(m: nat, sc: Scene, y: real) returns (film: seq<Scene>)
    requires Relinked(m, sc) && NEG_INF < y < POS_INF
    ensures From(m, film, sc) && |film| >= 2 && film[1].retired == sc.retired && Steady(film)
    ensures TowerStale.Touched(sc.clock + 1, Last(film)) && Last(film).up == sc.up
  {
    hide Shot;
    var a := Start(Get, y, 0, 0);
    var s0 := Play(m, sc, false, a);
    Single(m, sc, false, a);
    var f := Descent(m, s0, false, 1, m);
    Cat(m, [sc, s0], f, sc, s0, Last(f));
    film := Splicing([sc, s0], f);
    var s1 := Last(f);
    var s2 := Play(m, s1, false, Move(0));
    Single(m, s1, false, Move(0));
    Cat(m, film, [s1, s2], sc, s1, s2);
    film := Splicing(film, [s1, s2]);
    StillIsSteady(film);
  }

  lemma CleanStory(m: nat, sc: Scene, x: real, y: real, v: Value) returns (film: seq<Scene>, k: nat)
    requires Opening(m, sc) && m >= 1 && NEG_INF < x < POS_INF && NEG_INF < y < POS_INF
    ensures From(m, film, sc) && Steady(film) && k + 1 < |film| && OLD in film[k + 1].retired
    ensures TowerStale.Touched(film[k].clock + 1, Last(film))
    ensures HEAD in Last(film).up && m == |Last(film).up[HEAD]| && Last(film).up[HEAD][0] == Link(OLD, false)
  {
    hide Opening, Waiting, Flagged, Buried, Unlinked, TowerStale.Touched, ShotAt, Steady, Still;
    var ph := Join(1);
    film := Publishing(m, sc, x, v);
    var f := Storing(m, Last(film), x);
    film := Append(m, film, f);
    f := Flagging(m, ph, Last(film), x);
    film := Append(m, film, f);
    f := Marking(m, ph, Last(film), x);
    film := Append(m, film, f);
    f := Unlinking(m, ph, Last(film), x);
    film := Append(m, film, f);
    f := Relinking(m, Last(film), x);
    film := Append(m, film, f);
    k := |film| - 1;
    var mid := Last(film);
    f := Touching(m, mid, y);
    var h := Append(m, film, f);
    assert h[k] == mid && h[k + 1] == f[1];
    film := h;
  }

  // The insert of `x` has stored its successor when `x` is removed and retired, and
  // then links it on level 1: no mark is written over, and a get that begins
  // after the node was retired goes to it.
  lemma CleanRunTouchesRetired(m: nat, ts: set<Tid>, t: Tid, u: Tid, x: real, y: real, v: Value)
    returns (run: seq<Tower.State>, k: nat)
    requires m >= 1 && t in ts && u in ts && t != u && NEG_INF < x < POS_INF && NEG_INF < y < POS_INF
    ensures Tower.Behavior(m, run) && Clean(run) && run[0].base.threads.Keys == ts
    ensures k + 1 < |run| && OLD in run[k + 1].base.g.retired
    ensures var s := run[|run| - 1];
            && u in s.base.threads && u in s.regs && s.base.threads[u].begin == k + 1
            && s.base.threads[u].pc.Route? && s.regs[u].phase == Walk(1, OLD)
            && Has(s.up, HEAD, 1) && At(s.up, HEAD, 1).next == OLD
  {
    hide Tower.Init, Tower.Behavior, ShotAt, Opening, Outset, MarksStay;
    var sc := OutsetIsInit(m, ts, t, u);
    var film: seq<Scene>;
    film, k := CleanStory(m, sc, x, y, v);
    run := Filmed(m, Outset(m, ts), t, u, film);
    BaseRun(m, run);
    ClockIsIndex(Bases(run), k);
    assert Shows(run[k], t, u, film[k]) && Shows(run[k + 1], t, u, film[k + 1]);
    assert Shows(run[|run| - 1], t, u, Last(film));
    forall i | 0 <= i < |run| - 1 ensures CleanAt(run, i) {
      assert Shows(run[i], t, u, film[i]) && Shows(run[i + 1], t, u, film[i + 1]);
    }
  }
}
