/** The operations of a run in which every answer is right, in the order of their
  * points: the answers are those of one map, and the order keeps to real time.
  */
module BottomHistory {
  import opened Common
  import opened BottomList
  import opened BottomSteps
  import opened BottomRuns
  import opened BottomLinear
  import opened BottomOrder

  // ---------------------------------------------------------------------------
  // Histories
  // ---------------------------------------------------------------------------

  // Operations, named by their deciding steps, one after the other.
  type History = seq<nat>

  ghost function EventOf(run: seq<State>, j: nat): Event {
    if Deciding(run, j) then EventAt(run, j) else Look(0.0, None)
  }

  ghost function Replay(run: seq<State>, m: Table, h: History): Table {
    if h == [] then m else Apply(Replay(run, m, h[..|h| - 1]), EventOf(run, h[|h| - 1]))
  }

  // Every operation of the history answered as the map would have.
  ghost predicate Legal(run: seq<State>, m: Table, h: History) {
    h == [] ||
    (Legal(run, m, h[..|h| - 1]) && Fits(Replay(run, m, h[..|h| - 1]), EventOf(run, h[|h| - 1])))
  }

  lemma {:induction false} LegalAt(run: seq<State>, m: Table, h: History, i: nat)
    requires Legal(run, m, h) && i < |h|
    ensures Fits(Replay(run, m, h[..i]), EventOf(run, h[i]))
  {
    if i < |h| - 1 {
      LegalAt(run, m, h[..|h| - 1], i);
      assert h[..|h| - 1][..i] == h[..i];
    }
  }

  lemma {:induction false} Joined(run: seq<State>, m: Table, a: History, b: History)
    ensures Replay(run, m, a + b) == Replay(run, Replay(run, m, a), b)
    ensures Legal(run, m, a) && Legal(run, Replay(run, m, a), b) ==> Legal(run, m, a + b)
  {
    if b == [] {
      assert a + b == a;
    } else {
      var c := b[..|b| - 1];
      Joined(run, m, a, c);
      assert (a + b)[..|a + b| - 1] == a + c;
    }
  }

  lemma One(run: seq<State>, m: Table, j: nat)
    ensures Replay(run, m, [j]) == Apply(m, EventOf(run, j))
    ensures Legal(run, m, [j]) <==> Fits(m, EventOf(run, j))
  {
    var h := [j];
    assert h[..|h| - 1] == [];
    assert Replay(run, m, []) == m && Legal(run, m, []);
  }

  // ---------------------------------------------------------------------------
  // The order of points
  // ---------------------------------------------------------------------------

  // The operations below `n` with the given point.
  ghost function Pick(run: seq<State>, p: Point, n: nat): History {
    if n == 0 then []
    else if Deciding(run, n - 1) && PointOf(run, n - 1) == p then Pick(run, p, n - 1) + [n - 1]
    else Pick(run, p, n - 1)
  }

  ghost function All(run: seq<State>, p: Point): History { Pick(run, p, |run|) }

  // The late writes of steps below `w` that belong to `time`, each with its readers.
  ghost function Lates(run: seq<State>, time: nat, w: nat): History {
    if w == 0 then []
    else Lates(run, time, w - 1) + All(run, Point(time, 1, 2 * (w - 1))) + All(run, Point(time, 1, 2 * (w - 1) + 1))
  }

  ghost function Day(run: seq<State>, time: nat): History {
    All(run, Point(time, 0, 0)) + Lates(run, time, |run|) + All(run, Point(time, 2, 0))
  }

  ghost function Days(run: seq<State>, n: nat): History {
    if n == 0 then [] else Days(run, n - 1) + Day(run, n - 1)
  }

  ghost function Order(run: seq<State>): History { Days(run, |run|) }

  lemma {:induction false} PickHas(run: seq<State>, p: Point, n: nat, j: nat)
    ensures j in Pick(run, p, n) <==> j < n && Deciding(run, j) && PointOf(run, j) == p
  {
    if n > 0 { PickHas(run, p, n - 1, j); }
  }

  lemma AllHas(run: seq<State>, p: Point, j: nat)
    ensures j in All(run, p) <==> Deciding(run, j) && PointOf(run, j) == p
  {
    PickHas(run, p, |run|, j);
  }

  predicate Distinct(h: History) {
    forall i, j :: 0 <= i < j < |h| ==> h[i] != h[j]
  }

  lemma DistinctJoin(a: History, b: History)
    requires Distinct(a) && Distinct(b) && forall j :: j in a ==> j !in b
    ensures Distinct(a + b)
  {
    forall i, j | 0 <= i < j < |a + b| ensures (a + b)[i] != (a + b)[j] {
      assert j < |a| ==> (a + b)[i] == a[i] && (a + b)[j] == a[j];
      assert j >= |a| ==> (a + b)[j] == b[j - |a|] && (a + b)[j] in b;
      assert i < |a| ==> (a + b)[i] in a;
    }
  }

  lemma {:induction false} PickDistinct(run: seq<State>, p: Point, n: nat)
    ensures Distinct(Pick(run, p, n))
  {
    if n > 0 {
      PickDistinct(run, p, n - 1);
      PickHas(run, p, n - 1, n - 1);
      DistinctJoin(Pick(run, p, n - 1), [n - 1]);
    }
  }

  lemma {:induction false} LatesHas(run: seq<State>, time: nat, w: nat, j: nat)
    ensures j in Lates(run, time, w) <==>
      Deciding(run, j) && PointOf(run, j).time == time && PointOf(run, j).rank == 1 && PointOf(run, j).sub < 2 * w
  {
    hide All;
    if w > 0 {
      LatesHas(run, time, w - 1, j);
      AllHas(run, Point(time, 1, 2 * (w - 1)), j);
      AllHas(run, Point(time, 1, 2 * (w - 1) + 1), j);
    }
  }

  lemma {:induction false} LatesDistinct(run: seq<State>, time: nat, w: nat)
    ensures Distinct(Lates(run, time, w))
  {
    hide All, Distinct;
    if w > 0 {
      LatesDistinct(run, time, w - 1);
      var a := Lates(run, time, w - 1);
      var b, c := All(run, Point(time, 1, 2 * (w - 1))), All(run, Point(time, 1, 2 * w - 1));
      AllDistinct(run, Point(time, 1, 2 * (w - 1)));
      AllDistinct(run, Point(time, 1, 2 * w - 1));
      forall j | j in a ensures j !in b && j !in c {
        LatesHas(run, time, w - 1, j);
        AllHas(run, Point(time, 1, 2 * (w - 1)), j);
        AllHas(run, Point(time, 1, 2 * w - 1), j);
      }
      forall j | j in b ensures j !in c {
        AllHas(run, Point(time, 1, 2 * (w - 1)), j);
        AllHas(run, Point(time, 1, 2 * w - 1), j);
      }
      DistinctJoin(a, b);
      DistinctJoin(a + b, c);
    } else {
      assert Distinct([]) by { EmptyDistinct(); }
    }
  }

  lemma EmptyDistinct()
    ensures Distinct([])
  {
  }

  lemma AllDistinct(run: seq<State>, p: Point)
    ensures Distinct(All(run, p))
  {
    PickDistinct(run, p, |run|);
  }

  // The points an operation can have.
  predicate Placed(run: seq<State>, p: Point) {
    || (p.rank == 0 && p.sub == 0)
    || (p.rank == 1 && p.sub < 2 * |run|)
    || (p.rank == 2 && p.sub == 0)
  }

  lemma DayHas(run: seq<State>, time: nat, j: nat)
    ensures j in Day(run, time) <==>
      Deciding(run, j) && PointOf(run, j).time == time && Placed(run, PointOf(run, j))
  {
    hide All, Lates;
    AllHas(run, Point(time, 0, 0), j);
    LatesHas(run, time, |run|, j);
    AllHas(run, Point(time, 2, 0), j);
  }

  lemma DayDistinct(run: seq<State>, time: nat)
    ensures Distinct(Day(run, time))
  {
    hide All, Lates, Distinct;
    var a, b, c := All(run, Point(time, 0, 0)), Lates(run, time, |run|), All(run, Point(time, 2, 0));
    AllDistinct(run, Point(time, 0, 0));
    LatesDistinct(run, time, |run|);
    AllDistinct(run, Point(time, 2, 0));
    forall j | j in a ensures j !in b && j !in c {
      AllHas(run, Point(time, 0, 0), j);
      LatesHas(run, time, |run|, j);
      AllHas(run, Point(time, 2, 0), j);
    }
    forall j | j in b ensures j !in c {
      LatesHas(run, time, |run|, j);
      AllHas(run, Point(time, 2, 0), j);
    }
    DistinctJoin(a, b);
    DistinctJoin(a + b, c);
  }

  lemma {:induction false} DaysHas(run: seq<State>, n: nat, j: nat)
    ensures j in Days(run, n) <==>
      Deciding(run, j) && PointOf(run, j).time < n && Placed(run, PointOf(run, j))
  {
    hide Day, Placed;
    if n > 0 {
      DaysHas(run, n - 1, j);
      DayHas(run, n - 1, j);
    }
  }

  lemma {:induction false} DaysDistinct(run: seq<State>, n: nat)
    ensures Distinct(Days(run, n))
  {
    hide Day, Distinct, Placed;
    if n > 0 {
      DaysDistinct(run, n - 1);
      DayDistinct(run, n - 1);
      var a, b := Days(run, n - 1), Day(run, n - 1);
      forall j | j in a ensures j !in b {
        DaysHas(run, n - 1, j);
        DayHas(run, n - 1, j);
      }
      DistinctJoin(a, b);
    } else {
      EmptyDistinct();
    }
  }

  lemma {:induction false} DaysGrow(run: seq<State>, n: nat, k: nat)
    requires n <= k
    ensures Days(run, n) <= Days(run, k)
  {
    hide Day;
    if n < k { DaysGrow(run, n, k - 1); }
  }

  // An earlier time is an earlier place.
  lemma EarlierFirst(run: seq<State>, a: nat, b: nat)
    requires a < |Order(run)| && b < |Order(run)|
    requires Deciding(run, Order(run)[a]) && Deciding(run, Order(run)[b])
    requires PointOf(run, Order(run)[a]).time < PointOf(run, Order(run)[b]).time
    ensures a < b
  {
    hide Day, Placed;
    var h := Order(run);
    var n := PointOf(run, h[b]).time;
    DaysHas(run, |run|, h[a]);
    DaysHas(run, |run|, h[b]);
    DaysDistinct(run, |run|);
    DaysGrow(run, n, |run|);
    DaysHas(run, n, h[a]);
    DaysHas(run, n, h[b]);
    var d := Days(run, n);
    var i :| 0 <= i < |d| && d[i] == h[a];
    assert h[i] == h[a];
  }

  // ---------------------------------------------------------------------------
  // Deaths
  // ---------------------------------------------------------------------------

  lemma NodesMove(s: State, t: Tid, a: Action, s': State, n: Ptr)
    requires Next(s, t, a, s') && n in s.g.nodes && n in s'.g.nodes && !s.g.nodes[n].marked && s'.g.nodes[n].marked
    ensures s.threads[t].pc.Mark? && s.threads[t].pc.node == n && s'.threads[t].pc.Route?
  {
    hide AfterLoad, Counted;
  }

  // A death is the mark of the thread that steps, in an operation on that key.
  lemma DeathIsMark(run: seq<State>, j: nat, n: Ptr, k: real) returns (t: Tid)
    requires Behavior(run) && Dies(run, j, n, k)
    ensures MarkAt(run, j, t) && run[j].threads[t].pc.node == n && run[j].threads[t].key == k
  {
    hide Next, Init;
    assert StepAt(run, j);
    var a;
    t, a :| Next(run[j], t, a, run[j + 1]);
    NodesMove(run[j], t, a, run[j + 1], n);
    ThreadIn(run[j], t, a, run[j + 1]);
    AlwaysInv(run, j);
    MarkKey(run[j].g, run[j].threads[t]);
  }

  lemma ThreadIn(s: State, t: Tid, a: Action, s': State)
    requires Next(s, t, a, s')
    ensures t in s.threads && t in s'.threads
  {
  }

  lemma MarkKey(g: Shared, th: Thread)
    requires ThreadOk(g, th) && th.pc.Mark?
    ensures th.pc.node in g.nodes && g.nodes[th.pc.node].key == th.key
  {
  }

  lemma OneDeath(run: seq<State>, j: nat, n: Ptr, k: real, n': Ptr, k': real)
    requires Behavior(run) && Dies(run, j, n, k) && Dies(run, j, n', k')
    ensures n == n' && k == k'
  {
    hide Behavior;
    var t := DeathIsMark(run, j, n, k);
    var u := DeathIsMark(run, j, n', k');
    OneActor(run, j, t);
    OneActor(run, j, u);
  }

  // A node dies once.
  lemma DeathOnce(run: seq<State>, i: nat, j: nat, n: Ptr, k: real, k': real)
    requires Behavior(run) && Dies(run, i, n, k) && Dies(run, j, n, k')
    ensures i == j
  {
    hide Behavior;
    if i < j { NodeStays(run, i + 1, j, n); }
    if j < i { NodeStays(run, j + 1, i, n); }
  }

  // What marks is a removal of that key.
  lemma MarkKills(run: seq<State>, j: nat, t: Tid)
    requires Behavior(run) && MarkAt(run, j, t)
    ensures Dies(run, j, run[j].threads[t].pc.node, run[j].threads[t].key)
  {
    hide Behavior, Inv;
    var a := OwnStep(run, j, t);
    AlwaysInv(run, j);
    MarkStep(run[j], t, a, run[j + 1]);
  }

  lemma MarkStep(s: State, t: Tid, a: Action, s': State)
    requires Inv(s) && Next(s, t, a, s') && s.threads[t].pc.Mark? && s'.threads[t].pc.Route?
    ensures var n := s.threads[t].pc.node;
            && n in s.g.nodes && n in s'.g.nodes && !s.g.nodes[n].marked && s'.g.nodes[n].marked
            && s.g.nodes[n].key == s.threads[t].key
  {
    hide ListInv, AfterLoad, Counted;
    assert ThreadOk(s.g, s.threads[t]);
    MarkKey(s.g, s.threads[t]);
  }

  // ---------------------------------------------------------------------------
  // What the operations with a given point are
  // ---------------------------------------------------------------------------

  lemma PlainIs(run: seq<State>, j: nat)
    requires Behavior(run) && AnswersRight(run) && Deciding(run, j) && PointOf(run, j).rank == 0
    ensures PointOf(run, j).sub == 0 && PointOf(run, j).time < |run|
    ensures BeginOf(run, j) <= PointOf(run, j).time <= j + 1
    ensures var m := Contents(run[PointOf(run, j).time].g);
            Fits(m, EventOf(run, j)) && Apply(m, EventOf(run, j)) == m
  {
    hide Behavior, AnswersRight, Contents, LateRead;
    PointIs(run, j);
    var t := Actor(run, j);
    SettledAfter(run, j, t);
  }

  lemma WriteIs(run: seq<State>, j: nat, w: nat)
    requires Behavior(run) && AnswersRight(run) && Deciding(run, j)
    requires PointOf(run, j).rank == 1 && PointOf(run, j).sub == 2 * w
    ensures w == j && SwapAt(run, j, Actor(run, j))
    ensures BeginOf(run, j) <= PointOf(run, j).time < j
    ensures var th := run[j].threads[Actor(run, j)];
            && Dies(run, PointOf(run, j).time, th.pc.node, th.key)
            && EventOf(run, j) == Ins(th.key, th.val, false)
  {
    hide Behavior, AnswersRight, Contents, Dies, LateRead;
    PointIs(run, j);
    var t := Actor(run, j);
    assert SwapAt(run, j, t);
    SwapIsOwn(run, j, t);
    SettledAfter(run, j, t);
    SameOp(run, t, j, j + 1);
  }

  lemma ReadIs(run: seq<State>, j: nat, w: nat) returns (k: real, v: Value, n: Ptr)
    requires Behavior(run) && AnswersRight(run) && Deciding(run, j)
    requires PointOf(run, j).rank == 1 && PointOf(run, j).sub == 2 * w + 1
    ensures BeginOf(run, j) <= PointOf(run, j).time < j
    ensures var p := PointOf(run, j);
            && Dies(run, p.time, n, k) && EventOf(run, j) == Look(k, Some(v))
            && Deciding(run, w) && PointOf(run, w) == Point(p.time, 1, 2 * w) && EventOf(run, w) == Ins(k, v, false)
  {
    hide Behavior, AnswersRight, Contents, Dies, LateWrite;
    PointIs(run, j);
    var t, p := Actor(run, j), PointOf(run, j);
    assert LatePoint(run, j, t, p);
    var l :| LateRead(run, j, t, l) && p == Point(l.m, 1, 2 * l.w + 1);
    var th := run[j + 1].threads[t];
    k, v, n := th.key, th.got, l.n;
    SettledAfter(run, j, t);
    LateWriteIs(run, t, th.begin, j + 1, k, v, l);
  }

  // The late write a get has read is an operation at the same time.
  lemma LateWriteIs(run: seq<State>, t: Tid, begin: nat, i: nat, k: real, v: Value, l: Late)
    requires Behavior(run) && AnswersRight(run) && LateWrite(run, t, begin, i, k, v, l)
    ensures begin <= l.m < l.w < l.r <= i
    ensures Dies(run, l.m, l.n, k) && Deciding(run, l.w) && PointOf(run, l.w) == Point(l.m, 1, 2 * l.w)
    ensures EventOf(run, l.w) == Ins(k, v, false)
  {
    hide Behavior, AnswersRight, Contents;
    var a :| Next(run[l.w], l.u, a, run[l.w + 1]) && Does(run[l.w].g, run[l.w].threads[l.u], a, Swapped(l.n));
    SwapDecides(run, l.w, l.u, a);
    OneActor(run, l.w, l.u);
    PointIs(run, l.w);
    NodeStays(run, l.m + 1, l.w, l.n);
    assert !LiveAt(run[l.w].g.nodes, l.n);
    DeathOnce(run, l.m, PointOf(run, l.w).time, l.n, k, run[l.w].threads[l.u].key);
    WriteIs(run, l.w, l.w);
  }

  lemma SwapDecides(run: seq<State>, j: nat, t: Tid, a: Action)
    requires j + 1 < |run| && Next(run[j], t, a, run[j + 1]) && Swaps(run[j].threads[t], a)
    ensures SwapAt(run, j, t) && Decides(run, j, t)
  {
    hide Enabled, Outcome;
    AfterPc(run[j], t, a, run[j + 1]);
    SwapOutcome(run[j].g, run[j].threads[t], a);
  }

  lemma SwapOutcome(g: Shared, th: Thread, a: Action)
    requires Enabled(g, th, a) && Swaps(th, a)
    ensures Outcome(g, th, a).0.pc.Returned?
  {
  }

  lemma ChangeIs(run: seq<State>, j: nat)
    requires Behavior(run) && AnswersRight(run) && Deciding(run, j) && PointOf(run, j).rank == 2
    ensures PointOf(run, j) == Point(j, 2, 0) && BeginOf(run, j) <= j
    ensures var t := Actor(run, j);
            PubAt(run, j, t) || MarkAt(run, j, t) ||
            (SwapAt(run, j, t) && LiveAt(run[j].g.nodes, run[j].threads[t].pc.node))
  {
    hide Behavior, AnswersRight, Contents, LateRead;
    PointIs(run, j);
    SettledAfter(run, j, Actor(run, j));
  }

  lemma RankIs(run: seq<State>, j: nat)
    requires Behavior(run) && AnswersRight(run) && Deciding(run, j)
    ensures PointOf(run, j).rank <= 2
  {
    hide Behavior, AnswersRight, Contents, LateRead;
    PointIs(run, j);
  }

  // ---------------------------------------------------------------------------
  // One time
  // ---------------------------------------------------------------------------

  // One more operation with that point that fits and leaves the table alone.
  lemma OneMore(run: seq<State>, m: Table, p: Point, n: nat)
    requires n > 0 && Legal(run, m, Pick(run, p, n - 1)) && Replay(run, m, Pick(run, p, n - 1)) == m
    requires Deciding(run, n - 1) && PointOf(run, n - 1) == p ==>
               Fits(m, EventOf(run, n - 1)) && Apply(m, EventOf(run, n - 1)) == m
    ensures Legal(run, m, Pick(run, p, n)) && Replay(run, m, Pick(run, p, n)) == m
  {
    hide Legal, Replay, EventOf, Fits, Apply, Deciding;
    if Deciding(run, n - 1) && PointOf(run, n - 1) == p {
      One(run, m, n - 1);
      Joined(run, m, Pick(run, p, n - 1), [n - 1]);
    }
  }

  lemma NoneYet(run: seq<State>, m: Table, p: Point)
    ensures Legal(run, m, Pick(run, p, 0)) && Replay(run, m, Pick(run, p, 0)) == m
  {
  }

  lemma {:induction false} PlainFits(run: seq<State>, time: nat, n: nat)
    requires Behavior(run) && AnswersRight(run) && time < |run|
    ensures var m, h := Contents(run[time].g), Pick(run, Point(time, 0, 0), n);
            Legal(run, m, h) && Replay(run, m, h) == m
  {
    hide Behavior, AnswersRight, Contents, EventOf, Fits, Apply, Legal, Replay, Pick;
    var m, p := Contents(run[time].g), Point(time, 0, 0);
    if n == 0 {
      NoneYet(run, m, p);
    } else {
      PlainFits(run, time, n - 1);
      if Deciding(run, n - 1) && PointOf(run, n - 1) == p { PlainIs(run, n - 1); }
      OneMore(run, m, p, n);
    }
  }

  // Only the entry of `k` may differ, and it is there.
  predicate Near(m: Table, m': Table, k: real) {
    k in m && k in m' && m' == m[k := m'[k]]
  }

  lemma OnlyCopies(h: History, w: nat)
    requires Distinct(h) && forall i :: 0 <= i < |h| ==> h[i] == w
    ensures |h| <= 1
  {
    if |h| > 1 { Differ(h, 0, 1); }
  }

  lemma Differ(h: History, i: nat, j: nat)
    requires Distinct(h) && i < j < |h|
    ensures h[i] != h[j]
  {
  }

  lemma AtMostOne(h: History, w: nat)
    requires Distinct(h) && forall j :: j in h ==> j == w
    ensures h == [] || h == [w]
  {
    forall i | 0 <= i < |h| ensures h[i] == w { assert h[i] in h; }
    assert |h| <= 1 by { OnlyCopies(h, w); }
  }

  // A late write overwrites the entry of the node that is being removed.
  lemma WriteFits(run: seq<State>, time: nat, n: Ptr, k: real, w: nat, m: Table, m': Table) returns (m2: Table)
    requires Behavior(run) && AnswersRight(run) && time < |run| && Dies(run, time, n, k) && Near(m, m', k)
    ensures var h := All(run, Point(time, 1, 2 * w));
            && Legal(run, m', h) && m2 == Replay(run, m', h) && Near(m, m2, k)
            && (Deciding(run, w) && PointOf(run, w) == Point(time, 1, 2 * w) ==>
                  EventOf(run, w) == Ins(k, m2[k], false))
  {
    hide Behavior, AnswersRight, Dies, All, EventOf, Distinct;
    var p := Point(time, 1, 2 * w);
    var h := All(run, p);
    AllDistinct(run, p);
    forall j | j in h ensures j == w {
      AllHas(run, p, j);
      WriteIs(run, j, w);
    }
    AtMostOne(h, w);
    AllHas(run, p, w);
    m2 := Replay(run, m', h);
    if h == [w] {
      WriteIs(run, w, w);
      var th := run[w].threads[Actor(run, w)];
      OneDeath(run, time, n, k, th.pc.node, th.key);
      One(run, m', w);
    }
  }

  // And its readers answer with it.
  lemma {:induction false} ReadsFit(run: seq<State>, time: nat, n: Ptr, k: real, w: nat, m: Table, c: nat)
    requires Behavior(run) && AnswersRight(run) && time < |run| && Dies(run, time, n, k) && k in m
    requires Deciding(run, w) && PointOf(run, w) == Point(time, 1, 2 * w) ==> EventOf(run, w) == Ins(k, m[k], false)
    ensures var h := Pick(run, Point(time, 1, 2 * w + 1), c);
            Legal(run, m, h) && Replay(run, m, h) == m
  {
    hide Behavior, AnswersRight, Dies, EventOf, Legal, Replay, Pick, Deciding;
    var p := Point(time, 1, 2 * w + 1);
    if c == 0 {
      NoneYet(run, m, p);
    } else {
      ReadsFit(run, time, n, k, w, m, c - 1);
      if Deciding(run, c - 1) && PointOf(run, c - 1) == p {
        var k', v, n' := ReadIs(run, c - 1, w);
        OneDeath(run, time, n, k, n', k');
      }
      OneMore(run, m, p, c);
    }
  }

  lemma {:induction false} LatesFit(run: seq<State>, time: nat, n: Ptr, k: real, w: nat, m: Table) returns (m': Table)
    requires Behavior(run) && AnswersRight(run) && time < |run| && Dies(run, time, n, k) && k in m
    ensures var h := Lates(run, time, w);
            Legal(run, m, h) && m' == Replay(run, m, h) && Near(m, m', k)
  {
    hide Behavior, AnswersRight, Dies, All, EventOf;
    if w == 0 {
      m' := m;
    } else {
      var v := w - 1;
      var h, a, b := Lates(run, time, v), All(run, Point(time, 1, 2 * v)), All(run, Point(time, 1, 2 * v + 1));
      var m1 := LatesFit(run, time, n, k, v, m);
      var m2 := WriteFits(run, time, n, k, v, m, m1);
      ReadsFitAll(run, time, n, k, v, m2);
      Joined(run, m, h, a);
      Joined(run, m, h + a, b);
      m' := m2;
    }
  }

  lemma ReadsFitAll(run: seq<State>, time: nat, n: Ptr, k: real, w: nat, m: Table)
    requires Behavior(run) && AnswersRight(run) && time < |run| && Dies(run, time, n, k) && k in m
    requires Deciding(run, w) && PointOf(run, w) == Point(time, 1, 2 * w) ==> EventOf(run, w) == Ins(k, m[k], false)
    ensures var h := All(run, Point(time, 1, 2 * w + 1));
            Legal(run, m, h) && Replay(run, m, h) == m
  {
    ReadsFit(run, time, n, k, w, m, |run|);
  }

  // Without a removal there is nothing late.
  lemma NoLates(run: seq<State>, time: nat)
    requires Behavior(run) && AnswersRight(run) && forall n, k :: !Dies(run, time, n, k)
    ensures Lates(run, time, |run|) == []
  {
    hide Behavior, AnswersRight, Dies, Lates;
    var h := Lates(run, time, |run|);
    if h != [] {
      var j := h[0];
      LatesHas(run, time, |run|, j);
      var w := PointOf(run, j).sub / 2;
      if PointOf(run, j).sub == 2 * w {
        WriteIs(run, j, w);
      } else {
        var k, v, n := ReadIs(run, j, w);
      }
    }
  }

  // The table before the step of `time`: the map, but for an entry that goes with it.
  ghost predicate Before(run: seq<State>, time: nat, m: Table)
    requires time < |run|
  {
    || m == Contents(run[time].g)
    || exists n, k :: Dies(run, time, n, k) && Near(Contents(run[time].g), m, k)
  }

  lemma EarlyFits(run: seq<State>, time: nat) returns (m: Table)
    requires Behavior(run) && AnswersRight(run) && time < |run|
    ensures var h := All(run, Point(time, 0, 0)) + Lates(run, time, |run|);
            Legal(run, Contents(run[time].g), h) && m == Replay(run, Contents(run[time].g), h)
    ensures Before(run, time, m)
  {
    hide Behavior, AnswersRight, Contents, Dies, Lates, EventOf, Near, Pick;
    var c := Contents(run[time].g);
    var a, b := All(run, Point(time, 0, 0)), Lates(run, time, |run|);
    PlainFits(run, time, |run|);
    Joined(run, c, a, b);
    if n, k :| Dies(run, time, n, k) {
      DeathHasEntry(run, time, n, k);
      m := LatesFit(run, time, n, k, |run|, c);
    } else {
      NoLates(run, time);
      m := c;
    }
  }

  lemma DeathHasEntry(run: seq<State>, time: nat, n: Ptr, k: real)
    requires Behavior(run) && time < |run| && Dies(run, time, n, k)
    ensures k in Contents(run[time].g)
  {
    hide Behavior, Contents;
    AlwaysInv(run, time);
    DiesData(run[time], run[time + 1], time, run, n, k);
    ContentsAt(run[time].g, n, k);
  }

  lemma DiesData(s: State, s': State, time: nat, run: seq<State>, n: Ptr, k: real)
    requires Behavior(run) && Inv(s) && Dies(run, time, n, k) && s == run[time] && s' == run[time + 1]
    ensures Holds(s.g.nodes, n, k)
  {
    hide Behavior;
    AlwaysInv(run, time + 1);
  }

  // The step of `time` takes the table to the next map.
  lemma ChangeFits(run: seq<State>, time: nat, m: Table)
    requires Behavior(run) && AnswersRight(run) && time + 1 < |run| && Before(run, time, m)
    ensures var h := All(run, Point(time, 2, 0));
            Legal(run, m, h) && Replay(run, m, h) == Contents(run[time + 1].g)
  {
    hide Behavior, AnswersRight, Contents, Dies, All, EventOf, Distinct, Before;
    var p := Point(time, 2, 0);
    var h := All(run, p);
    AllDistinct(run, p);
    forall j | j in h ensures j == time {
      AllHas(run, p, j);
      ChangeIs(run, j);
    }
    AtMostOne(h, time);
    AllHas(run, p, time);
    if h == [time] {
      ChangeIs(run, time);
      One(run, m, time);
      StepFits(run, time, m);
    } else {
      NoChange(run, time);
      NothingDies(run, time, m);
    }
  }

  // Without a change of the map nothing dies.
  lemma NothingDies(run: seq<State>, time: nat, m: Table)
    requires Behavior(run) && time + 1 < |run| && Before(run, time, m) && forall t :: !MarkAt(run, time, t)
    ensures m == Contents(run[time].g)
  {
    hide Behavior, Contents, Dies, MarkAt;
    if n, k :| Dies(run, time, n, k) {
      var t := DeathIsMark(run, time, n, k);
    }
  }

  lemma NoChange(run: seq<State>, time: nat)
    requires Behavior(run) && AnswersRight(run) && time + 1 < |run|
    requires !(Deciding(run, time) && PointOf(run, time) == Point(time, 2, 0))
    ensures Contents(run[time + 1].g) == Contents(run[time].g)
    ensures forall t :: !PubAt(run, time, t) && !MarkAt(run, time, t)
  {
    hide Behavior, AnswersRight, Contents;
    forall t ensures !PubAt(run, time, t) && !MarkAt(run, time, t) {
      if PubAt(run, time, t) || MarkAt(run, time, t) { OneActor(run, time, t); PointIs(run, time); }
    }
    forall t | SwapAt(run, time, t)
      ensures run[time].threads[t].pc.node in run[time].g.nodes
      ensures run[time].g.nodes[run[time].threads[t].pc.node].marked
    {
      OneActor(run, time, t);
      PointIs(run, time);
      SwapIsOwn(run, time, t);
      var th := run[time].threads[t];
      OwnMapStep(run, t, time, th.key, th.val, Swapped(th.pc.node));
    }
    QuietStep(run, time);
  }

  lemma StepFits(run: seq<State>, time: nat, m: Table)
    requires Behavior(run) && time + 1 < |run| && Before(run, time, m) && Deciding(run, time)
    requires var t := Actor(run, time);
             PubAt(run, time, t) || MarkAt(run, time, t) ||
             (SwapAt(run, time, t) && LiveAt(run[time].g.nodes, run[time].threads[t].pc.node))
    ensures Fits(m, EventOf(run, time)) && Apply(m, EventOf(run, time)) == Contents(run[time + 1].g)
  {
    hide Behavior, Contents, Dies, Before;
    var t := Actor(run, time);
    var th := run[time].threads[t];
    if PubAt(run, time, t) {
      PubIsOwn(run, time, t);
      OwnMapStep(run, t, time, th.key, th.val, Published);
      NoMark(run, time, t);
      NothingDies(run, time, m);
    } else if MarkAt(run, time, t) {
      MarkIsOwn(run, time, t);
      OwnMapStep(run, t, time, th.key, th.val, Marked);
      MarkFits(run, time, t, m);
    } else {
      SwapIsOwn(run, time, t);
      OwnMapStep(run, t, time, th.key, th.val, Swapped(th.pc.node));
      SettledAfter(run, time, t);
      SameOp(run, t, time, time + 1);
      NoMark(run, time, t);
      NothingDies(run, time, m);
    }
  }

  lemma NoMark(run: seq<State>, time: nat, t: Tid)
    requires Behavior(run) && (PubAt(run, time, t) || SwapAt(run, time, t))
    ensures forall u :: !MarkAt(run, time, u)
  {
    hide Behavior;
    OneActor(run, time, t);
    forall u ensures !MarkAt(run, time, u) {
      if MarkAt(run, time, u) { OneActor(run, time, u); }
    }
  }

  lemma MarkFits(run: seq<State>, time: nat, t: Tid, m: Table)
    requires Behavior(run) && time + 1 < |run| && Before(run, time, m) && MarkAt(run, time, t)
    ensures var k := run[time].threads[t].key;
            k in Contents(run[time].g) ==> k in m && m - {k} == Contents(run[time].g) - {k}
  {
    hide Behavior, Contents, Dies;
    var th := run[time].threads[t];
    MarkKills(run, time, t);
    if m != Contents(run[time].g) {
      var n, k :| Dies(run, time, n, k) && Near(Contents(run[time].g), m, k);
      OneDeath(run, time, n, k, th.pc.node, th.key);
    }
  }

  lemma DayFits(run: seq<State>, time: nat)
    requires Behavior(run) && AnswersRight(run) && time < |run|
    ensures var c, h := Contents(run[time].g), Day(run, time);
            && Legal(run, c, h)
            && Replay(run, c, h) == if time + 1 < |run| then Contents(run[time + 1].g) else c
  {
    hide Behavior, AnswersRight, Contents, Lates, All, EventOf, Before;
    var c := Contents(run[time].g);
    var m := EarlyFits(run, time);
    Joined(run, c, All(run, Point(time, 0, 0)) + Lates(run, time, |run|), All(run, Point(time, 2, 0)));
    if time + 1 < |run| {
      ChangeFits(run, time, m);
    } else {
      LastDay(run, time, m);
    }
  }

  // In the last state nothing happens any more.
  lemma LastDay(run: seq<State>, time: nat, m: Table)
    requires Behavior(run) && AnswersRight(run) && time + 1 == |run| && Before(run, time, m)
    ensures m == Contents(run[time].g) && All(run, Point(time, 2, 0)) == []
  {
    hide Behavior, AnswersRight, Contents, All;
    var h := All(run, Point(time, 2, 0));
    if h != [] {
      AllHas(run, Point(time, 2, 0), h[0]);
      ChangeIs(run, h[0]);
    }
  }

  lemma EmptyAtFirst(run: seq<State>)
    requires Behavior(run)
    ensures Contents(run[0].g) == map[]
  {
    assert forall p, k :: !Holds(run[0].g.nodes, p, k);
    assert Keys(run[0].g.nodes) == {};
  }

  lemma {:induction false} DaysFit(run: seq<State>, n: nat)
    requires Behavior(run) && AnswersRight(run) && n <= |run|
    ensures var h := Days(run, n);
            && Legal(run, map[], h)
            && Replay(run, map[], h) == Contents(run[if n < |run| then n else |run| - 1].g)
  {
    hide StepAt, Init, AnswersRight, Contents, Day, EventOf;
    if n == 0 {
      EmptyAtFirst(run);
    } else {
      DaysFit(run, n - 1);
      DayFits(run, n - 1);
      Joined(run, map[], Days(run, n - 1), Day(run, n - 1));
    }
  }

  lemma AllPlaced(run: seq<State>, j: nat)
    requires Behavior(run) && AnswersRight(run) && Deciding(run, j)
    ensures Placed(run, PointOf(run, j))
    ensures BeginOf(run, j) <= PointOf(run, j).time < |run| && PointOf(run, j).time <= j + 1
  {
    hide Behavior, AnswersRight, Contents, Dies, EventOf;
    RankIs(run, j);
    var p := PointOf(run, j);
    DecidesWhere(run, j, Actor(run, j));
    if p.rank == 0 {
      PlainIs(run, j);
    } else if p.rank == 2 {
      ChangeIs(run, j);
    } else {
      var w := p.sub / 2;
      if p.sub == 2 * w {
        WriteIs(run, j, w);
      } else {
        var k, v, n := ReadIs(run, j, w);
        DecidesWhere(run, w, Actor(run, w));
      }
    }
  }

  // ---------------------------------------------------------------------------
  // One order of all operations
  // ---------------------------------------------------------------------------

  // If every answer is right on its own, all operations, each once, can be put in
  // one order in which every one answers as one map would have: the map starts
  // empty and ends as what the list stands for.
  lemma OneOrder(run: seq<State>)
    requires Behavior(run) && AnswersRight(run)
    ensures var h := Order(run);
            && Distinct(h) && (forall j: nat :: j in h <==> Deciding(run, j))
            && (forall i {:trigger h[i]} :: 0 <= i < |h| ==> Fits(Replay(run, map[], h[..i]), EventOf(run, h[i])))
            && Replay(run, map[], h) == Contents(run[|run| - 1].g)
  {
    hide StepAt, Init, AnswersRight, Contents, EventOf, Distinct, Placed, Days;
    var h := Order(run);
    DaysDistinct(run, |run|);
    DaysFit(run, |run|);
    forall j: nat ensures j in h <==> Deciding(run, j) {
      DaysHas(run, |run|, j);
      if Deciding(run, j) { AllPlaced(run, j); }
    }
    forall i | 0 <= i < |h| ensures Fits(Replay(run, map[], h[..i]), EventOf(run, h[i])) {
      LegalAt(run, map[], h, i);
    }
  }

  // Every operation that has returned is in the order, with the answer it gave.
  lemma Answered(run: seq<State>, i: nat, t: Tid) returns (a: nat)
    requires Behavior(run) && AnswersRight(run)
    requires i < |run| && t in run[i].threads && run[i].threads[t].pc.Returned?
    ensures var h := Order(run);
            && a < |h| && h[a] < i && Decides(run, h[a], t) && run[h[a]].threads[t].begin == run[i].threads[t].begin
            && EventOf(run, h[a]) == Outward(run[i].threads[t])
  {
    hide Behavior, AnswersRight, Order;
    var j := Decided(run, i, t);
    OneOrder(run);
    assert j in Order(run);
    a :| 0 <= a < |Order(run)| && Order(run)[a] == j;
  }

  // The order keeps to real time: what had returned before another operation began
  // comes before it.
  lemma RealTimeOrder(run: seq<State>, i: nat, t: Tid, a: nat, b: nat)
    requires Behavior(run) && AnswersRight(run) && a < |Order(run)| && b < |Order(run)|
    requires i < |run| && t in run[i].threads && run[i].threads[t].pc.Returned?
    requires Decides(run, Order(run)[a], t) && run[Order(run)[a]].threads[t].begin == run[i].threads[t].begin
    requires Deciding(run, Order(run)[b]) && i < BeginOf(run, Order(run)[b])
    ensures a < b
  {
    hide Behavior, AnswersRight, Order, Decides, Placed;
    var h := Order(run);
    var j := Decided(run, i, t);
    OneDecision(run, t, j, h[a]);
    AllPlaced(run, h[a]);
    AllPlaced(run, h[b]);
    EarlierFirst(run, a, b);
  }
}
