/** Runs of two threads written as films: what the threads and the list look like
  * at every moment, without the history variables.
  */
module TowerFilm {
  import opened BottomList
  import opened BottomSteps
  import opened Tower
  import opened TowerClean

  // ---------------------------------------------------------------------------
  // Scenes
  // ---------------------------------------------------------------------------

  // What a thread knows, and what can be seen of the list and two threads.
  datatype Mind = Mind(key: real, val: Value, pc: Pc, begin: nat, reg: Reg)
  datatype Scene = Scene(
    nodes: Heap, cells: Cells, retired: seq<Ptr>, up: Towers, clock: nat, one: Mind, two: Mind)

  function List(sc: Scene): Shared { Shared(sc.nodes, {}, sc.cells, sc.retired, {}, 0, sc.clock) }

  function Actor(mind: Mind): Thread {
    Thread(mind.key, mind.val, mind.pc, 0, mind.begin, -1, false, {}, false, false)
  }

  function Who(sc: Scene, first: bool): Mind { if first then sc.one else sc.two }

  predicate Can(m: nat, sc: Scene, first: bool, a: Act) {
    var mind := Who(sc, first);
    && Ready(m, List(sc), Actor(mind), mind.reg, sc.up, a)
    && Enabled(List(sc), Actor(mind), Effect(m, List(sc), Actor(mind), mind.reg, sc.up, a).0)
  }

  function Play(m: nat, sc: Scene, first: bool, a: Act): Scene
    requires Can(m, sc, first, a)
  {
    var mind := Who(sc, first);
    var (b, reg, up) := Effect(m, List(sc), Actor(mind), mind.reg, sc.up, a);
    var (th, g) := Outcome(List(sc), Actor(mind), b);
    var mind' := Mind(th.key, th.val, th.pc, th.begin, reg);
    Scene(g.nodes, g.cells, g.retired, up, sc.clock + 1,
          if first then mind' else sc.one, if first then sc.two else mind')
  }

  ghost predicate Shot(m: nat, sc: Scene, sc': Scene) {
    exists first, a :: Can(m, sc, first, a) && sc' == Play(m, sc, first, a)
  }

  ghost predicate Film(m: nat, film: seq<Scene>) {
    |film| > 0 && forall i {:trigger ShotAt(m, film, i)} :: 0 <= i < |film| - 1 ==> ShotAt(m, film, i)
  }

  ghost predicate ShotAt(m: nat, film: seq<Scene>, i: int) {
    0 <= i < |film| - 1 && Shot(m, film[i], film[i + 1])
  }

  function Last(film: seq<Scene>): Scene
    requires |film| > 0
  {
    film[|film| - 1]
  }

  // ---------------------------------------------------------------------------
  // A film shows a run
  // ---------------------------------------------------------------------------

  ghost predicate Minds(th: Thread, reg: Reg, mind: Mind) {
    th.key == mind.key && th.val == mind.val && th.pc == mind.pc && th.begin == mind.begin && reg == mind.reg
  }

  ghost predicate Shows(s: Tower.State, t: Tid, u: Tid, sc: Scene) {
    && s.base.g.nodes == sc.nodes && s.base.g.cells == sc.cells && s.base.g.retired == sc.retired
    && s.base.g.clock == sc.clock && s.up == sc.up
    && t in s.base.threads && u in s.base.threads && t in s.regs && u in s.regs
    && Minds(s.base.threads[t], s.regs[t], sc.one) && Minds(s.base.threads[u], s.regs[u], sc.two)
  }

  ghost predicate Alike(g: Shared, th: Thread, g0: Shared, th0: Thread) {
    && g.nodes == g0.nodes && g.cells == g0.cells && g.retired == g0.retired
    && th.key == th0.key && th.val == th0.val && th.pc == th0.pc && th.begin == th0.begin
  }

  // A step depends only on what a scene shows.
  lemma SameOutcome(g: Shared, th: Thread, g0: Shared, th0: Thread, b: Action)
    requires Alike(g, th, g0, th0) && g.clock == g0.clock
    ensures Enabled(g, th, b) == Enabled(g0, th0, b)
    ensures Enabled(g, th, b) ==>
      var (th', g'), (th0', g0') := Outcome(g, th, b), Outcome(g0, th0, b);
      Alike(g', th', g0', th0')
  {
    if b.Go? && Enabled(g, th, b) { SameAdvance(g, th, g0, th0, b.memory); }
  }

  lemma SameAdvance(g: Shared, th: Thread, g0: Shared, th0: Thread, n: Ptr)
    requires Alike(g, th, g0, th0) && g.clock == g0.clock && Enabled(g, th, Go(n)) && Enabled(g0, th0, Go(n))
    ensures var (th', g'), (th0', g0') := Advance(g, th, n), Advance(g0, th0, n);
            Alike(g', th', g0', th0')
  {
    if th.pc.Splice? { SameSplice(g, th, g0, th0, n); }
    else if th.pc.Publish? { SamePublish(g, th, g0, th0, n); }
    else if th.pc.Mark? { SameMark(g, th, g0, th0, n); }
    else if th.pc.Load? { SameLoad(th, th0, g.nodes[th.pc.curr]); }
    else if th.pc.CountAdd? || th.pc.CountSub? { SameCount(g, th, g0, th0, n); }
    else if th.pc.Update? || th.pc.LoadValue? { SameValue(g, th, g0, th0, n); }
    else { SameRead(g, th, g0, th0, n); }
  }

  lemma SameSplice(g: Shared, th: Thread, g0: Shared, th0: Thread, n: Ptr)
    requires Alike(g, th, g0, th0) && g.clock == g0.clock && Enabled(g, th, Go(n)) && Enabled(g0, th0, Go(n))
    requires th.pc.Splice?
    ensures var (th', g'), (th0', g0') := Advance(g, th, n), Advance(g0, th0, n);
            Alike(g', th', g0', th0')
  {
    hide AfterLoad, Counted;
  }

  lemma SamePublish(g: Shared, th: Thread, g0: Shared, th0: Thread, n: Ptr)
    requires Alike(g, th, g0, th0) && g.clock == g0.clock && Enabled(g, th, Go(n)) && Enabled(g0, th0, Go(n))
    requires th.pc.Publish?
    ensures var (th', g'), (th0', g0') := Advance(g, th, n), Advance(g0, th0, n);
            Alike(g', th', g0', th0')
  {
    hide AfterLoad, Counted;
  }

  lemma SameMark(g: Shared, th: Thread, g0: Shared, th0: Thread, n: Ptr)
    requires Alike(g, th, g0, th0) && g.clock == g0.clock && Enabled(g, th, Go(n)) && Enabled(g0, th0, Go(n))
    requires th.pc.Mark?
    ensures var (th', g'), (th0', g0') := Advance(g, th, n), Advance(g0, th0, n);
            Alike(g', th', g0', th0')
  {
    hide AfterLoad, Counted;
  }

  lemma SameCount(g: Shared, th: Thread, g0: Shared, th0: Thread, n: Ptr)
    requires Alike(g, th, g0, th0) && g.clock == g0.clock && Enabled(g, th, Go(n)) && Enabled(g0, th0, Go(n))
    requires th.pc.CountAdd? || th.pc.CountSub?
    ensures var (th', g'), (th0', g0') := Advance(g, th, n), Advance(g0, th0, n);
            Alike(g', th', g0', th0')
  {
    hide AfterLoad, CasOk;
  }

  lemma SameValue(g: Shared, th: Thread, g0: Shared, th0: Thread, n: Ptr)
    requires Alike(g, th, g0, th0) && g.clock == g0.clock && Enabled(g, th, Go(n)) && Enabled(g0, th0, Go(n))
    requires th.pc.Update? || th.pc.LoadValue?
    ensures var (th', g'), (th0', g0') := Advance(g, th, n), Advance(g0, th0, n);
            Alike(g', th', g0', th0')
  {
    hide AfterLoad, CasOk;
  }

  lemma SameRead(g: Shared, th: Thread, g0: Shared, th0: Thread, n: Ptr)
    requires Alike(g, th, g0, th0) && g.clock == g0.clock && Enabled(g, th, Go(n)) && Enabled(g0, th0, Go(n))
    requires th.pc.ReadMark? || th.pc.LoadSucc? || th.pc.Recheck? || th.pc.Retire?
    ensures var (th', g'), (th0', g0') := Advance(g, th, n), Advance(g0, th0, n);
            Alike(g', th', g0', th0')
  {
    hide AfterLoad, CasOk;
  }

  lemma SameLoad(th: Thread, th0: Thread, node: Node)
    requires th.pc == th0.pc && th.pc.Load? && th.key == th0.key
    ensures AfterLoad(th, node) == AfterLoad(th0, node)
  {
  }

  lemma SameStep(m: nat, g: Shared, th: Thread, sc: Scene, mind: Mind, a: Act)
    requires g.nodes == sc.nodes && g.cells == sc.cells && g.retired == sc.retired && g.clock == sc.clock
    requires Minds(th, mind.reg, mind)
    ensures Ready(m, g, th, mind.reg, sc.up, a) == Ready(m, List(sc), Actor(mind), mind.reg, sc.up, a)
    ensures Ready(m, g, th, mind.reg, sc.up, a) ==>
      Effect(m, g, th, mind.reg, sc.up, a) == Effect(m, List(sc), Actor(mind), mind.reg, sc.up, a)
  {
    hide Has, At, Put, CasOk, Enabled, Outcome;
    SameOutcome(g, th, List(sc), Actor(mind), if a.Move? then Go(a.memory) else Begin(a.goal, a.key, a.val));
    SameOutcome(g, th, List(sc), Actor(mind), Enter);
  }

  // Nobody else has moved.
  ghost predicate Others(s: Tower.State, s': Tower.State, t: Tid, u: Tid) {
    && s'.base.threads.Keys == s.base.threads.Keys
    && forall w :: w in s.base.threads && w != t && w != u ==> s'.base.threads[w].pc == s.base.threads[w].pc
  }

  // One shot is one step.
  lemma OneStep(m: nat, s: Tower.State, t: Tid, u: Tid, sc: Scene, first: bool, a: Act) returns (s': Tower.State)
    requires Shows(s, t, u, sc) && t != u && Can(m, sc, first, a)
    ensures Tower.Next(m, s, if first then t else u, a, s') && Shows(s', t, u, Play(m, sc, first, a))
    ensures Others(s, s', t, u)
  {
    hide Ready, Effect, Enabled, Outcome;
    var w, mind := if first then t else u, Who(sc, first);
    var g, th := s.base.g, s.base.threads[w];
    SameStep(m, g, th, sc, mind, a);
    var b := Effect(m, g, th, mind.reg, s.up, a).0;
    SameOutcome(g, th, List(sc), Actor(mind), b);
    s' := After(m, s, w, a);
    ClockAfter(g, th, b);
  }

  lemma {:induction false} Filmed(m: nat, start: Tower.State, t: Tid, u: Tid, film: seq<Scene>)
    returns (run: seq<Tower.State>)
    requires Tower.Init(m, start) && t != u && Film(m, film) && Shows(start, t, u, film[0])
    ensures |run| == |film| && run[0] == start && Tower.Behavior(m, run)
    ensures forall i {:trigger run[i]} :: 0 <= i < |run| ==> Shows(run[i], t, u, film[i])
    ensures Others(start, run[|run| - 1], t, u)
  {
    hide Tower.Init, Shows, Can, Play, Tower.Next;
    run := [start];
    while |run| < |film|
      invariant 1 <= |run| <= |film| && run[0] == start && Tower.Behavior(m, run)
      invariant Others(start, run[|run| - 1], t, u)
      invariant forall i {:trigger run[i]} :: 0 <= i < |run| ==> Shows(run[i], t, u, film[i])
    {
      var k := |run| - 1;
      assert ShotAt(m, film, k);
      var first, a :| Can(m, film[k], first, a) && film[k + 1] == Play(m, film[k], first, a);
      var s' := OneStep(m, run[k], t, u, film[k], first, a);
      Longer(m, run, s');
      run := run + [s'];
    }
  }

  lemma Longer(m: nat, run: seq<Tower.State>, s': Tower.State)
    requires Tower.Behavior(m, run) && Tower.Stepped(m, run[|run| - 1], s')
    ensures Tower.Behavior(m, run + [s'])
  {
    hide Tower.Init, Tower.Stepped;
    var run' := run + [s'];
    forall i | 0 <= i < |run'| - 1 ensures Tower.StepAt(m, run', i) {
      if i < |run| - 1 { assert Tower.StepAt(m, run, i); }
    }
  }

  // ---------------------------------------------------------------------------
  // Cutting films
  // ---------------------------------------------------------------------------

  // A film from one scene to another.
  ghost predicate Leads(m: nat, film: seq<Scene>, sc: Scene, sc': Scene) {
    Film(m, film) && film[0] == sc && Last(film) == sc'
  }

  ghost predicate From(m: nat, film: seq<Scene>, sc: Scene) {
    Film(m, film) && film[0] == sc
  }

  // From some scene on, all links stay as they are at the end.
  ghost predicate Still(film: seq<Scene>, from: nat) {
    && |film| > 0
    && forall i :: from <= i < |film| ==> film[i].nodes == Last(film).nodes && film[i].up == Last(film).up
  }

  // No mark on an upper link is lost.
  ghost predicate Steady(film: seq<Scene>) {
    |film| > 0 && forall i :: 0 <= i < |film| - 1 ==> MarksStay(film[i].up, film[i + 1].up)
  }

  function Splicing(f: seq<Scene>, g: seq<Scene>): seq<Scene>
    requires |g| > 0
  {
    f + g[1..]
  }

  lemma Cat(m: nat, f: seq<Scene>, g: seq<Scene>, a: Scene, b: Scene, c: Scene)
    requires Leads(m, f, a, b) && Leads(m, g, b, c)
    ensures Leads(m, Splicing(f, g), a, c)
    ensures forall k :: Still(f, k) && Still(g, 0) ==> Still(Splicing(f, g), k)
    ensures Steady(f) && Steady(g) ==> Steady(Splicing(f, g))
  {
    hide Shot, MarksStay;
    var h := Splicing(f, g);
    forall i | 0 <= i < |h| - 1 ensures ShotAt(m, h, i) {
      if i < |f| - 1 {
        assert ShotAt(m, f, i);
      } else {
        assert ShotAt(m, g, i - (|f| - 1));
      }
    }
  }

  lemma StillIsSteady(film: seq<Scene>)
    requires Still(film, 0)
    ensures Steady(film)
  {
  }

  lemma Single(m: nat, sc: Scene, first: bool, a: Act)
    requires Can(m, sc, first, a)
    ensures Leads(m, [sc, Play(m, sc, first, a)], sc, Play(m, sc, first, a))
  {
  }

  lemma Append(m: nat, f: seq<Scene>, g: seq<Scene>) returns (h: seq<Scene>)
    requires Film(m, f) && Film(m, g) && g[0] == Last(f)
    ensures Film(m, h) && h == Splicing(f, g) && h[0] == f[0] && Last(h) == Last(g)
    ensures forall k :: Still(f, k) && Still(g, 0) ==> Still(h, k)
    ensures Steady(f) && Steady(g) ==> Steady(h)
  {
    hide ShotAt, Steady;
    Cat(m, f, g, f[0], Last(f), Last(g));
    h := Splicing(f, g);
  }

  // ---------------------------------------------------------------------------
  // A search through empty upper levels
  // ---------------------------------------------------------------------------

  function Recast(sc: Scene, first: bool, mind: Mind, clock: nat): Scene {
    if first then sc.(one := mind, clock := clock) else sc.(two := mind, clock := clock)
  }

  predicate Sentries(m: nat, sc: Scene) {
    && HEAD in sc.up && TAIL in sc.up && |sc.up[HEAD]| == m && |sc.up[TAIL]| == m
    && HEAD in sc.nodes && TAIL in sc.nodes && sc.nodes[TAIL].key == POS_INF
    && (forall l :: 0 <= l < m ==> sc.up[TAIL][l] == Link(NULL, false))
  }

  predicate Empty(sc: Scene, lo: nat, level: nat) {
    HEAD in sc.up && level <= |sc.up[HEAD]| && forall l :: lo <= l < level ==> sc.up[HEAD][l] == Link(TAIL, false)
  }

  predicate Descending(m: nat, sc: Scene, first: bool, level: nat) {
    var mind := Who(sc, first);
    && Sentries(m, sc) && mind.pc.Route? && mind.pc.start == HEAD && mind.key < POS_INF && level <= m
    && mind.reg.phase == Descend(level) && |mind.reg.preds| == m && |mind.reg.succs| == m
  }

  function Noting(reg: Reg, lo: nat, level: nat): Reg
    requires lo <= level <= |reg.preds| && level <= |reg.succs|
  {
    reg.(phase := Descend(lo),
         preds := reg.preds[..lo] + seq(level - lo, _ => HEAD) + reg.preds[level..],
         succs := reg.succs[..lo] + seq(level - lo, _ => TAIL) + reg.succs[level..])
  }

  lemma OneLevel(m: nat, sc: Scene, first: bool, level: nat) returns (film: seq<Scene>)
    requires Descending(m, sc, first, level) && level >= 1 && Empty(sc, level - 1, level)
    ensures var mind := Who(sc, first);
            Leads(m, film, sc, Recast(sc, first, mind.(reg := Noting(mind.reg, level - 1, level)), sc.clock + 2))
    ensures Still(film, 0)
  {
    var mind := Who(sc, first);
    var sc1 := Play(m, sc, first, Move(0));
    assert sc1 == Recast(sc, first, mind.(reg := mind.reg.(phase := Walk(level, TAIL))), sc.clock + 1);
    var sc2 := Play(m, sc1, first, Move(0));
    var reg' := Noting(mind.reg, level - 1, level);
    assert reg'.preds == mind.reg.preds[level - 1 := HEAD] && reg'.succs == mind.reg.succs[level - 1 := TAIL];
    assert sc2 == Recast(sc, first, mind.(reg := reg'), sc.clock + 2);
    Single(m, sc, first, Move(0));
    Single(m, sc1, first, Move(0));
    Cat(m, [sc, sc1], [sc1, sc2], sc, sc1, sc2);
    film := Splicing([sc, sc1], [sc1, sc2]);
  }

  lemma {:induction false} Descent(m: nat, sc: Scene, first: bool, lo: nat, level: nat) returns (film: seq<Scene>)
    requires Descending(m, sc, first, level) && lo <= level && Empty(sc, lo, level)
    ensures var mind := Who(sc, first);
            Leads(m, film, sc, Recast(sc, first, mind.(reg := Noting(mind.reg, lo, level)),
                sc.clock + 2 * (level - lo)))
    ensures Still(film, 0)
    decreases level
  {
    hide Can, Play, Shot;
    var mind := Who(sc, first);
    if lo == level {
      film := [sc];
      assert Noting(mind.reg, lo, level) == mind.reg;
    } else {
      var f := OneLevel(m, sc, first, level);
      var mid := Last(f);
      var g := Descent(m, mid, first, lo, level - 1);
      NotingOn(mind.reg, lo, level);
      Cat(m, f, g, sc, mid, Last(g));
      film := Splicing(f, g);
    }
  }

  lemma NotingOn(reg: Reg, lo: nat, level: nat)
    requires lo < level <= |reg.preds| && level <= |reg.succs|
    ensures Noting(Noting(reg, level - 1, level), lo, level - 1) == Noting(reg, lo, level)
  {
    var once, all := Noting(reg, level - 1, level), Noting(reg, lo, level);
    assert Noting(once, lo, level - 1).preds == all.preds;
    assert Noting(once, lo, level - 1).succs == all.succs;
  }

  function Everywhere(m: nat, top: nat, node: Ptr, rung: nat): Reg {
    Reg(Below, top, node, rung, seq(m, _ => HEAD), seq(m, _ => TAIL))
  }

  // A search that finds the upper levels empty enters level 0 at head.
  lemma Again(m: nat, sc: Scene, first: bool) returns (film: seq<Scene>)
    requires Descending(m, sc, first, m) && Empty(sc, 0, m)
    ensures var mind := Who(sc, first);
            var reg := Everywhere(m, mind.reg.top, mind.reg.node, mind.reg.rung);
            Leads(m, film, sc, Recast(sc, first, mind.(pc := Load(mind.pc.goal, HEAD, sc.nodes[HEAD].next), reg := reg),
                                      sc.clock + 2 * m + 1))
    ensures Still(film, 0)
  {
    hide Shot;
    var mind := Who(sc, first);
    var f := Descent(m, sc, first, 0, m);
    var mid := Last(f);
    assert mid.nodes == sc.nodes;
    Single(m, mid, first, Move(0));
    var end := Play(m, mid, first, Move(0));
    var reg := Everywhere(m, mind.reg.top, mind.reg.node, mind.reg.rung);
    assert Noting(mind.reg, 0, m).preds == reg.preds && Noting(mind.reg, 0, m).succs == reg.succs;
    assert end == Recast(sc, first, mind.(pc := Load(mind.pc.goal, HEAD, sc.nodes[HEAD].next), reg := reg),
                         sc.clock + 2 * m + 1);
    Cat(m, f, [mid, end], sc, mid, end);
    film := Splicing(f, [mid, end]);
  }

  predicate Resting(mind: Mind) {
    mind.pc.Idle? || mind.pc.Returned?
  }

  lemma Search(m: nat, sc: Scene, first: bool, goal: Goal, key: real, val: Value, top: nat) returns (film: seq<Scene>)
    requires Sentries(m, sc) && Empty(sc, 0, m) && Resting(Who(sc, first))
    requires goal in {Insert, Remove, Get} && NEG_INF < key < POS_INF && top <= m
    ensures Leads(m, film, sc,
                  Recast(sc, first, Mind(key, val, Load(goal, HEAD, sc.nodes[HEAD].next), sc.clock + 1,
                                         Everywhere(m, top, NULL, 0)), sc.clock + 2 * m + 2))
    ensures Still(film, 0)
  {
    hide Shot;
    Single(m, sc, first, Start(goal, key, val, top));
    var mid := Play(m, sc, first, Start(goal, key, val, top));
    var g := Again(m, mid, first);
    Cat(m, [sc, mid], g, sc, mid, Last(g));
    film := Splicing([sc, mid], g);
  }

  // ---------------------------------------------------------------------------
  // The opening scene
  // ---------------------------------------------------------------------------

  function Plain(next: Ptr): Heap {
    map[HEAD := Node(NEG_INF, next, false), TAIL := Node(POS_INF, NULL, false)]
  }

  predicate Opening(m: nat, sc: Scene) {
    && sc.nodes == Plain(TAIL) && sc.up.Keys == {HEAD, TAIL} && Sentries(m, sc) && Empty(sc, 0, m)
    && Resting(sc.one) && Resting(sc.two)
  }

  function Nobody(): Thread { Thread(0.0, 0, Idle, 0, 0, -1, false, {}, false, false) }

  function Nothing(): Reg { Reg(Below, 0, NULL, 0, [], []) }

  // The empty list, with the given threads.
  function Outset(m: nat, ts: set<Tid>): Tower.State {
    Tower.State.State(
      BottomList.State.State(Shared(Plain(TAIL), {HEAD, TAIL}, map[], [], {}, 0, 0), map t | t in ts :: Nobody()),
      map[HEAD := seq(m, _ => Link(TAIL, false)), TAIL := seq(m, _ => Link(NULL, false))],
      map t | t in ts :: Nothing())
  }

  lemma OutsetIsInit(m: nat, ts: set<Tid>, t: Tid, u: Tid) returns (sc: Scene)
    requires t in ts && u in ts
    ensures Tower.Init(m, Outset(m, ts)) && Outset(m, ts).base.threads.Keys == ts
    ensures Shows(Outset(m, ts), t, u, sc) && Opening(m, sc)
  {
    var s := Outset(m, ts);
    var mind := Mind(0.0, 0, Idle, 0, Nothing());
    sc := Scene(s.base.g.nodes, s.base.g.cells, [], s.up, 0, mind, mind);
  }

  lemma TwoOf(ts: set<Tid>) returns (t: Tid, u: Tid)
    requires |ts| > 1
    ensures t in ts && u in ts && t != u
  {
    t :| t in ts;
    assert |ts - {t}| > 0;
    u :| u in ts - {t};
  }
}
