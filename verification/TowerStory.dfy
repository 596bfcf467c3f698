/** The beginning of the runs that go wrong: an insert of `x` is overtaken, while it
  * links its upper level, by a remove of `x` and then by an insert of `y`.
  */
module TowerStory {
  import opened BottomList
  import opened Tower
  import opened TowerClean
  import opened TowerFilm

  const OLD: Ptr := 3
  const NEW: Ptr := 4

  // The first thread has published `x` and is about to link it on level 1.
  predicate Waiting(m: nat, ph: Phase, x: real, sc: Scene) {
    && sc.nodes == Plain(OLD)[OLD := Node(x, TAIL, false)] && OLD in sc.cells
    && sc.one.key == x && Paused(m, ph, sc) && OLD in sc.up && sc.up[OLD] == [Link(TAIL, false)] && Resting(sc.two)
  }

  // The first thread waits before its store, or its compare-and-swap, on level 1,
  // and all upper levels are empty.
  predicate Paused(m: nat, ph: Phase, sc: Scene) {
    && Sentries(m, sc) && Empty(sc, 0, m) && sc.one.pc.CountAdd?
    && sc.one.reg == Everywhere(m, 1, OLD, 1).(phase := ph)
  }

  lemma Publishing(m: nat, sc: Scene, x: real, v: Value) returns (film: seq<Scene>)
    requires Opening(m, sc) && m >= 1 && NEG_INF < x < POS_INF
    ensures From(m, film, sc) && Waiting(m, Store(1), x, Last(film)) && Steady(film)
  {
    hide Shot, Can, Play, MarksStay;
    film := Search(m, sc, true, Insert, x, v, 1);
    StillIsSteady(film);
    var s0 := Last(film);
    var f := Placing(m, s0, x);
    Cat(m, film, f, sc, s0, Last(f));
    film := Splicing(film, f);
  }

  lemma Placing(m: nat, sc: Scene, x: real) returns (film: seq<Scene>)
    requires sc.nodes == Plain(TAIL) && sc.up.Keys == {HEAD, TAIL} && Sentries(m, sc) && Empty(sc, 0, m) && m >= 1
    requires sc.one == Mind(x, sc.one.val, Load(Insert, HEAD, TAIL), sc.one.begin, Everywhere(m, 1, NULL, 0))
    requires NEG_INF < x < POS_INF && Resting(sc.two)
    ensures From(m, film, sc) && Waiting(m, Store(1), x, Last(film)) && Steady(film)
  {
    hide Shot;
    var s1 := Play(m, sc, true, Move(0));
    assert s1 == sc.(one := sc.one.(pc := Publish(HEAD, TAIL)), clock := sc.clock + 1);
    var s2 := Play(m, s1, true, Move(OLD));
    assert s2.nodes == Plain(OLD)[OLD := Node(x, TAIL, false)];
    assert s2.up[OLD] == [Link(TAIL, false)];
    Single(m, sc, true, Move(0));
    Single(m, s1, true, Move(OLD));
    Cat(m, [sc, s1], [s1, s2], sc, s1, s2);
    film := Splicing([sc, s1], [s1, s2]);
  }

  // The second thread has marked `x`, and searches for it to unlink it.
  predicate Buried(m: nat, ph: Phase, x: real, sc: Scene) {
    && sc.nodes == Plain(OLD)[OLD := Node(x, TAIL, true)] && OLD in sc.cells
    && sc.one.key == x && Paused(m, ph, sc) && OLD in sc.up && sc.up[OLD] == [Link(TAIL, true)]
    && sc.two.pc == Route(Unlink(OLD), HEAD) && sc.two.key == x && sc.two.reg.top == 0 && Descending(m, sc, false, m)
  }

  // The second thread finds the node and has marked its level 1.
  predicate Flagged(m: nat, ph: Phase, x: real, sc: Scene) {
    && sc.nodes == Plain(OLD)[OLD := Node(x, TAIL, false)] && OLD in sc.cells
    && sc.one.key == x && Paused(m, ph, sc) && OLD in sc.up && sc.up[OLD] == [Link(TAIL, true)]
    && sc.two == Mind(x, 0, LoadSucc(OLD), sc.two.begin, Everywhere(m, 0, NULL, 0).(phase := Look(1)))
  }

  lemma Flagging(m: nat, ph: Phase, sc: Scene, x: real) returns (film: seq<Scene>)
    requires Waiting(m, ph, x, sc) && m >= 1 && NEG_INF < x < POS_INF
    ensures From(m, film, sc) && Flagged(m, ph, x, Last(film)) && Steady(film)
  {
    hide Shot;
    var f := Search(m, sc, false, Remove, x, 0, 0);
    var s0 := Last(f);
    var s1 := Play(m, s0, false, Move(0));
    assert s1 == s0.(two := s0.two.(pc := LoadSucc(OLD), reg := s0.two.reg.(phase := Look(1))), clock := s0.clock + 1);
    var s2 := Play(m, s1, false, Move(0));
    assert s2 == s1.(two := s1.two.(reg := s1.two.reg.(phase := Flag(1, TAIL))), clock := s1.clock + 1);
    var s3 := Play(m, s2, false, Move(0));
    assert s3.up[OLD] == [Link(TAIL, true)];
    Single(m, s0, false, Move(0));
    Single(m, s1, false, Move(0));
    Single(m, s2, false, Move(0));
    Cat(m, f, [s0, s1], sc, s0, s1);
    Cat(m, Splicing(f, [s0, s1]), [s1, s2], sc, s1, s2);
    film := Splicing(f, [s0, s1]);
    film := Splicing(film, [s1, s2]);
    Cat(m, film, [s2, s3], sc, s2, s3);
    film := Splicing(film, [s2, s3]);
  }

  lemma Marking(m: nat, ph: Phase, sc: Scene, x: real) returns (film: seq<Scene>)
    requires Flagged(m, ph, x, sc) && m >= 1 && NEG_INF < x < POS_INF
    ensures From(m, film, sc) && Buried(m, ph, x, Last(film)) && Steady(film)
  {
    hide Shot;
    var s1 := Play(m, sc, false, Move(0));
    assert s1 == sc.(two := sc.two.(reg := sc.two.reg.(phase := Below)), clock := sc.clock + 1);
    var s2 := Play(m, s1, false, Move(0));
    assert s2 == s1.(two := s1.two.(pc := Mark(OLD, TAIL)), clock := s1.clock + 1);
    var s3 := Play(m, s2, false, Move(0));
    assert s3.nodes == Plain(OLD)[OLD := Node(x, TAIL, true)];
    Single(m, sc, false, Move(0));
    Single(m, s1, false, Move(0));
    Single(m, s2, false, Move(0));
    Cat(m, [sc, s1], [s1, s2], sc, s1, s2);
    film := Splicing([sc, s1], [s1, s2]);
    Cat(m, film, [s2, s3], sc, s2, s3);
    film := Splicing(film, [s2, s3]);
  }

  // The second thread has removed `x`.
  predicate Unlinked(m: nat, ph: Phase, x: real, sc: Scene) {
    && sc.nodes == Plain(TAIL)[OLD := Node(x, TAIL, true)]
    && sc.one.key == x && Paused(m, ph, sc) && OLD in sc.up && sc.up[OLD] == [Link(TAIL, true)]
    && sc.two.pc == Returned(Remove, true) && OLD in sc.retired
  }

  lemma Unlinking(m: nat, ph: Phase, sc: Scene, x: real) returns (film: seq<Scene>)
    requires Buried(m, ph, x, sc) && m >= 1 && NEG_INF < x < POS_INF
    ensures From(m, film, sc) && Unlinked(m, ph, x, Last(film)) && Steady(film)
  {
    hide Shot;
    film := Again(m, sc, false);
    var s0 := Last(film);
    var s1 := Play(m, s0, false, Move(0));
    assert s1 == s0.(two := s0.two.(pc := Splice(Unlink(OLD), HEAD, OLD, TAIL)), clock := s0.clock + 1);
    var s2 := Play(m, s1, false, Move(0));
    assert s2.nodes == Plain(TAIL)[OLD := Node(x, TAIL, true)];
    assert s2 == s1.(nodes := s2.nodes, two := s1.two.(pc := Load(Unlink(OLD), HEAD, TAIL)), clock := s1.clock + 1);
    Single(m, s0, false, Move(0));
    Single(m, s1, false, Move(0));
    Cat(m, film, [s0, s1], sc, s0, s1);
    film := Splicing(film, [s0, s1]);
    Cat(m, film, [s1, s2], sc, s1, s2);
    film := Splicing(film, [s1, s2]);
    var g := HandingOver(m, ph, s2, x);
    Cat(m, film, g, sc, s2, Last(g));
    film := Splicing(film, g);
  }

  lemma HandingOver(m: nat, ph: Phase, sc: Scene, x: real) returns (film: seq<Scene>)
    requires sc.nodes == Plain(TAIL)[OLD := Node(x, TAIL, true)] && NEG_INF < x < POS_INF
    requires sc.one.key == x && Paused(m, ph, sc) && OLD in sc.up && sc.up[OLD] == [Link(TAIL, true)]
    requires sc.two.pc == Load(Unlink(OLD), HEAD, TAIL) && sc.two.key == x
    requires sc.two.reg.phase.Below? && sc.two.reg.top <= |sc.two.reg.succs|
    ensures From(m, film, sc) && Unlinked(m, ph, x, Last(film)) && Steady(film)
  {
    hide Shot;
    var s1 := Play(m, sc, false, Move(0));
    assert s1 == sc.(two := sc.two.(pc := CountSub(OLD)), clock := sc.clock + 1);
    Single(m, sc, false, Move(0));
    var f := Retiring(m, ph, s1, x);
    Cat(m, [sc, s1], f, sc, s1, Last(f));
    film := Splicing([sc, s1], f);
  }

  lemma StaysPaused(m: nat, ph: Phase, sc: Scene, sc': Scene)
    requires Paused(m, ph, sc) && sc'.nodes == sc.nodes && sc'.up == sc.up && sc'.one == sc.one
    ensures Paused(m, ph, sc')
  {
  }

  lemma Retiring(m: nat, ph: Phase, sc: Scene, x: real) returns (film: seq<Scene>)
    requires sc.nodes == Plain(TAIL)[OLD := Node(x, TAIL, true)] && sc.two.pc == CountSub(OLD)
    requires sc.one.key == x && Paused(m, ph, sc) && OLD in sc.up && sc.up[OLD] == [Link(TAIL, true)]
    requires sc.two.reg.phase.Below? && sc.two.reg.top <= |sc.two.reg.succs|
    ensures From(m, film, sc) && Unlinked(m, ph, x, Last(film)) && Steady(film)
  {
    hide Shot, Plain, MarksStay, Paused;
    var s1 := Play(m, sc, false, Move(0));
    assert s1 == sc.(two := sc.two.(pc := Retire(OLD)), clock := sc.clock + 1);
    var s2 := Play(m, s1, false, Move(0));
    assert s2 == s1.(retired := s1.retired + [OLD], two := s1.two.(pc := Returned(Remove, true)),
                     clock := s1.clock + 1);
    StaysPaused(m, ph, sc, s2);
    Single(m, sc, false, Move(0));
    Single(m, s1, false, Move(0));
    Cat(m, [sc, s1], [s1, s2], sc, s1, s2);
    film := Splicing([sc, s1], [s1, s2]);
    StillIsSteady(film);
  }

  function Both(x: real, y: real): Heap {
    Plain(NEW)[OLD := Node(x, TAIL, true)][NEW := Node(y, TAIL, false)]
  }

  lemma BothHolds(x: real, y: real)
    ensures var nodes := Both(x, y);
            && OLD in nodes && nodes[OLD] == Node(x, TAIL, true)
            && TAIL in nodes && nodes[TAIL] == Node(POS_INF, NULL, false)
  {
  }

  // The second thread has inserted `y`, on level 0.
  predicate Joined(m: nat, ph: Phase, x: real, y: real, sc: Scene) {
    && sc.nodes == Both(x, y) && Paused(m, ph, sc) && OLD in sc.up && sc.up[OLD] == [Link(TAIL, true)]
    && Resting(sc.two) && OLD in sc.retired && NEW in sc.cells && NEW in sc.up && sc.up[NEW] == []
  }

  lemma Joining(m: nat, ph: Phase, sc: Scene, x: real, y: real, w: Value) returns (film: seq<Scene>)
    requires Unlinked(m, ph, x, sc) && m >= 1 && NEG_INF < x < y < POS_INF
    ensures From(m, film, sc) && Joined(m, ph, x, y, Last(film))
  {
    hide Shot, Can, Play;
    film := Search(m, sc, false, Insert, y, w, 0);
    var s0 := Last(film);
    var f := Adding(m, ph, s0, x, y);
    Cat(m, film, f, sc, s0, Last(f));
    film := Splicing(film, f);
  }

  lemma Adding(m: nat, ph: Phase, sc: Scene, x: real, y: real) returns (film: seq<Scene>)
    requires sc.nodes == Plain(TAIL)[OLD := Node(x, TAIL, true)] && Paused(m, ph, sc) && NEG_INF < x < y < POS_INF
    requires OLD in sc.up && sc.up[OLD] == [Link(TAIL, true)] && OLD in sc.retired
    requires sc.two == Mind(y, sc.two.val, Load(Insert, HEAD, TAIL), sc.two.begin, Everywhere(m, 0, NULL, 0))
    ensures From(m, film, sc) && Joined(m, ph, x, y, Last(film))
  {
    hide Shot;
    var s1 := Play(m, sc, false, Move(0));
    assert s1 == sc.(two := sc.two.(pc := Publish(HEAD, TAIL)), clock := sc.clock + 1);
    Single(m, sc, false, Move(0));
    var f := Posting(m, ph, s1, x, y);
    Cat(m, [sc, s1], f, sc, s1, Last(f));
    film := Splicing([sc, s1], f);
  }

  predicate AtPost(m: nat, ph: Phase, x: real, y: real, sc: Scene) {
    && sc.nodes == Plain(TAIL)[OLD := Node(x, TAIL, true)] && Paused(m, ph, sc) && NEG_INF < x < y < POS_INF
    && OLD in sc.up && sc.up[OLD] == [Link(TAIL, true)] && OLD in sc.retired
    && sc.two == Mind(y, sc.two.val, Publish(HEAD, TAIL), sc.two.begin, Everywhere(m, 0, NULL, 0))
  }

  lemma PostShot(m: nat, ph: Phase, sc: Scene, x: real, y: real)
    requires AtPost(m, ph, x, y, sc)
    ensures Can(m, sc, false, Move(NEW))
    ensures var sc' := Play(m, sc, false, Move(NEW));
            && sc'.nodes == Both(x, y) && sc'.one == sc.one && sc'.up == sc.up[NEW := []]
            && NEW in sc'.cells && sc'.retired == sc.retired
            && sc'.two.pc == CountAdd && sc'.two.reg == Everywhere(m, 0, NEW, 1)
  {
    hide Empty, Sentries, Plain, Both;
    BothNodes(x, y);
    assert Play(m, sc, false, Move(NEW)).up[NEW] == [];
  }

  lemma BothNodes(x: real, y: real)
    ensures var nodes := Plain(TAIL)[OLD := Node(x, TAIL, true)];
            && nodes.Keys == {HEAD, TAIL, OLD} && nodes[HEAD] == Node(NEG_INF, TAIL, false)
            && nodes[NEW := Node(y, TAIL, false)][HEAD := Node(NEG_INF, NEW, false)] == Both(x, y)
  {
  }

  lemma Posting(m: nat, ph: Phase, sc: Scene, x: real, y: real) returns (film: seq<Scene>)
    requires AtPost(m, ph, x, y, sc)
    ensures From(m, film, sc) && Joined(m, ph, x, y, Last(film))
  {
    hide Shot, Can, Play;
    PostShot(m, ph, sc, x, y);
    Single(m, sc, false, Move(NEW));
    var s1 := Play(m, sc, false, Move(NEW));
    var f := Counting(m, s1);
    Cat(m, [sc, s1], f, sc, s1, Last(f));
    film := Splicing([sc, s1], f);
  }

  lemma Counting(m: nat, sc: Scene) returns (film: seq<Scene>)
    requires sc.two.pc.CountAdd? && sc.two.reg.phase.Below? && sc.two.reg.top <= |sc.two.reg.succs|
    ensures Leads(m, film, sc, sc.(two := sc.two.(pc := Returned(Insert, true)), clock := sc.clock + 1))
  {
    Single(m, sc, false, Move(0));
    film := [sc, Play(m, sc, false, Move(0))];
  }

  // The first thread links the dead node on level 1.
  lemma Reviving(m: nat, sc: Scene) returns (film: seq<Scene>)
    requires Paused(m, Store(1), sc) && m >= 1 && OLD in sc.up && |sc.up[OLD]| == 1
    ensures From(m, film, sc) && Revived(m, sc, Last(film))
  {
    hide Shot;
    var s1 := Play(m, sc, true, Move(0));
    assert s1.up[OLD] == [Link(TAIL, false)] && s1.up[HEAD] == sc.up[HEAD] && s1.one.reg.phase == Join(1);
    var s2 := Play(m, s1, true, Move(0));
    assert s2.up[HEAD] == sc.up[HEAD][0 := Link(OLD, false)];
    Single(m, sc, true, Move(0));
    Single(m, s1, true, Move(0));
    Cat(m, [sc, s1], [s1, s2], sc, s1, s2);
    film := Splicing([sc, s1], [s1, s2]);
  }

  // The dead node is back on level 1, and everything else is as it was.
  predicate Revived(m: nat, sc: Scene, sc': Scene) {
    && Haunted(m, sc') && sc'.nodes == sc.nodes && sc'.cells == sc.cells && sc'.retired == sc.retired
    && sc'.two == sc.two && sc'.one == sc.one.(reg := sc.one.reg.(rung := 2, phase := Below))
  }

  // Level 1 leads from head to the dead node and on to tail.
  predicate Haunted(m: nat, sc: Scene) {
    && Sentries(m, sc) && m >= 1 && sc.up[HEAD][0] == Link(OLD, false) && Empty(sc, 1, m)
    && OLD in sc.up && sc.up[OLD] == [Link(TAIL, false)]
  }

  // A search for a larger key goes down through the dead node.
  lemma Straying(m: nat, sc: Scene) returns (film: seq<Scene>, i: nat)
    requires Haunted(m, sc) && Descending(m, sc, false, m) && Stray(sc)
    ensures From(m, film, sc) && Strayed(sc, Last(film)) && Still(film, 0)
    ensures i < |film| && film[i].two == sc.two.(reg := film[i].two.reg) && film[i].two.reg.phase == Walk(1, OLD)
  {
    hide Shot;
    var f := Descent(m, sc, false, 1, m);
    var s1 := Last(f);
    var s2 := Play(m, s1, false, Move(0));
    assert s2 == s1.(two := s1.two.(reg := s1.two.reg.(phase := Walk(1, OLD))), clock := s1.clock + 1);
    Single(m, s1, false, Move(0));
    Cat(m, f, [s1, s2], sc, s1, s2);
    film := Splicing(f, [s1, s2]);
    i := |film| - 1;
    var g := EnteringDead(m, s2);
    Cat(m, film, g, sc, s2, Last(g));
    film := Splicing(film, g);
  }

  // The dead node leads to tail on level 0, and the second thread looks for a larger key.
  predicate Stray(sc: Scene) {
    && OLD in sc.nodes && sc.nodes[OLD].key < sc.two.key < POS_INF && sc.nodes[OLD].next == TAIL
    && TAIL in sc.nodes && sc.nodes[TAIL].key == POS_INF && sc.two.pc.Route? && sc.two.reg.top == 0
  }

  // The second thread has entered level 0 at the dead node.
  predicate Strayed(sc: Scene, sc': Scene) {
    && sc'.nodes == sc.nodes && sc'.cells == sc.cells && sc'.retired == sc.retired && sc'.up == sc.up
    && sc.two.pc.Route?
    && sc'.two == sc.two.(pc := Load(sc.two.pc.goal, OLD, TAIL), reg := sc'.two.reg)
    && sc'.two.reg.phase.Below? && sc'.two.reg.top == 0
  }

  lemma EnteringDead(m: nat, sc: Scene) returns (film: seq<Scene>)
    requires Sentries(m, sc) && m >= 1 && Stray(sc) && OLD in sc.up && sc.up[OLD] == [Link(TAIL, false)]
    requires sc.two.pc.start == HEAD && sc.two.reg.phase == Walk(1, OLD)
    requires |sc.two.reg.preds| == m && |sc.two.reg.succs| == m
    ensures From(m, film, sc) && Strayed(sc, Last(film)) && Still(film, 0)
  {
    hide Shot;
    var goal := sc.two.pc.goal;
    var s1 := Play(m, sc, false, Move(0));
    assert s1 == sc.(two := sc.two.(pc := Route(goal, OLD), reg := sc.two.reg.(phase := Walk(1, TAIL))),
                     clock := sc.clock + 1);
    var s2 := Play(m, s1, false, Move(0));
    assert s2 == s1.(two := s1.two.(reg := s2.two.reg), clock := s1.clock + 1);
    Single(m, sc, false, Move(0));
    Single(m, s1, false, Move(0));
    Cat(m, [sc, s1], [s1, s2], sc, s1, s2);
    film := Splicing([sc, s1], [s1, s2]);
    var s3 := Play(m, s2, false, Move(0));
    assert s3 == s2.(two := s2.two.(pc := Load(goal, OLD, TAIL), reg := s2.two.reg.(phase := Below)),
                     clock := s2.clock + 1);
    Single(m, s2, false, Move(0));
    Cat(m, film, [s2, s3], sc, s2, s3);
    film := Splicing(film, [s2, s3]);
  }

  // An insert of `x` is overtaken by a remove of `x` and an insert of `y`.
  lemma Overtaken(m: nat, sc: Scene, x: real, y: real, v: Value, w: Value) returns (film: seq<Scene>)
    requires Opening(m, sc) && m >= 1 && NEG_INF < x < y < POS_INF
    ensures From(m, film, sc) && Joined(m, Store(1), x, y, Last(film))
  {
    hide Opening, Waiting, Flagged, Buried, Unlinked, Joined, ShotAt, Steady, Still;
    var ph := Store(1);
    var f1 := Publishing(m, sc, x, v);
    var f2 := Flagging(m, ph, Last(f1), x);
    var f3 := Marking(m, ph, Last(f2), x);
    var f4 := Unlinking(m, ph, Last(f3), x);
    var f5 := Joining(m, ph, Last(f4), x, y, w);
    film := Append(m, f1, f2);
    film := Append(m, film, f3);
    film := Append(m, film, f4);
    film := Append(m, film, f5);
  }
}
