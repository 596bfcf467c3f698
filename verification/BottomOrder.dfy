/** One order of all operations of a run in which every answer is right: a legal
  * history of one map that keeps to real time.
  *
  * An operation is named by the step that decides it: the publish, mark or swap of
  * one that makes a change, the returning step of one that does not.
  */
module BottomOrder {
  import opened Common
  import opened BottomList
  import opened BottomSteps
  import opened BottomRuns
  import opened BottomLinear

  // ---------------------------------------------------------------------------
  // Operations of a map
  // ---------------------------------------------------------------------------

  datatype Event = Ins(k: real, v: Value, new_: bool) | Rem(k: real, ok: bool) | Look(k: real, r: Option<Value>)

  type Table = map<real, Value>

  function Apply(m: Table, e: Event): Table {
    match e
    case Ins(k, v, _) => m[k := v]
    case Rem(k, _) => m - {k}
    case Look(_, _) => m
  }

  // The answer is the map's.
  predicate Fits(m: Table, e: Event) {
    match e
    case Ins(k, _, new_) => new_ == (k !in m)
    case Rem(k, ok) => ok == (k in m)
    case Look(k, r) => r == if k in m then Some(m[k]) else None
  }

  // ---------------------------------------------------------------------------
  // Deciding steps
  // ---------------------------------------------------------------------------

  ghost predicate Moving(run: seq<State>, j: int, t: Tid) {
    0 <= j < |run| - 1 && t in run[j].threads && t in run[j + 1].threads
  }

  ghost predicate PubAt(run: seq<State>, j: int, t: Tid) {
    Moving(run, j, t) && run[j].threads[t].pc.Publish? && run[j + 1].threads[t].pc.CountAdd?
  }

  ghost predicate MarkAt(run: seq<State>, j: int, t: Tid) {
    Moving(run, j, t) && run[j].threads[t].pc.Mark? && run[j + 1].threads[t].pc.Route?
  }

  ghost predicate SwapAt(run: seq<State>, j: int, t: Tid) {
    Moving(run, j, t) && run[j].threads[t].pc.Update? && run[j + 1].threads[t].pc.Returned?
  }

  // The step returns an answer that claims no change.
  ghost predicate AnswerAt(run: seq<State>, j: int, t: Tid) {
    Moving(run, j, t) && Active(run[j].threads[t]) && Plain(run[j + 1].threads[t].pc)
  }

  predicate Plain(pc: Pc) {
    pc.Returned? && (pc.goal.Get? || (pc.goal.Remove? && !pc.ok))
  }

  ghost predicate Decides(run: seq<State>, j: int, t: Tid) {
    PubAt(run, j, t) || MarkAt(run, j, t) || SwapAt(run, j, t) || AnswerAt(run, j, t)
  }

  ghost predicate Deciding(run: seq<State>, j: int) {
    exists t :: Decides(run, j, t)
  }

  ghost function Actor(run: seq<State>, j: int): (t: Tid)
    requires Deciding(run, j)
    ensures Decides(run, j, t)
  {
    var t :| Decides(run, j, t); t
  }

  // What an operation that has returned did, by its registers.
  function Outward(th: Thread): Event
    requires th.pc.Returned?
  {
    match th.pc.goal
    case Get => Look(th.key, if th.pc.ok then Some(th.got) else None)
    case Remove => Rem(th.key, th.pc.ok)
    case _ => Ins(th.key, th.val, th.pc.ok)
  }

  ghost function EventAt(run: seq<State>, j: int): Event
    requires Deciding(run, j)
  {
    var t := Actor(run, j);
    var th := run[j].threads[t];
    if PubAt(run, j, t) then Ins(th.key, th.val, true)
    else if MarkAt(run, j, t) then Rem(th.key, true)
    else Outward(run[j + 1].threads[t])
  }

  // The operation begins with the state of this index.
  ghost function BeginOf(run: seq<State>, j: int): nat
    requires Deciding(run, j)
  {
    run[j].threads[Actor(run, j)].begin
  }

  // ---------------------------------------------------------------------------
  // A deciding step is its actor's
  // ---------------------------------------------------------------------------

  lemma OthersStay(s: State, u: Tid, a: Action, s': State, t: Tid)
    requires Next(s, u, a, s') && t in s.threads && t != u
    ensures t in s'.threads && s'.threads[t].pc == s.threads[t].pc
  {
  }

  lemma OwnStep(run: seq<State>, j: int, t: Tid) returns (a: Action)
    requires Behavior(run) && Decides(run, j, t)
    ensures Next(run[j], t, a, run[j + 1])
  {
    hide Next, Init;
    assert StepAt(run, j);
    var u;
    u, a :| Next(run[j], u, a, run[j + 1]);
    if u != t { OthersStay(run[j], u, a, run[j + 1], t); }
  }

  lemma OneActor(run: seq<State>, j: int, t: Tid)
    requires Behavior(run) && Decides(run, j, t)
    ensures Deciding(run, j) && Actor(run, j) == t
  {
    hide Next, Behavior;
    var u := Actor(run, j);
    var a := OwnStep(run, j, t);
    if u != t {
      StillMoving(run, j, u);
      OthersStay(run[j], t, a, run[j + 1], u);
    }
  }

  // A deciding step changes the program counter.
  lemma StillMoving(run: seq<State>, j: int, t: Tid)
    requires Decides(run, j, t)
    ensures Moving(run, j, t) && run[j].threads[t].pc != run[j + 1].threads[t].pc
  {
  }

  lemma AfterPc(s: State, t: Tid, a: Action, s': State)
    requires Next(s, t, a, s')
    ensures t in s.threads && t in s'.threads && s'.threads[t].pc == Outcome(s.g, s.threads[t], a).0.pc
    ensures s'.threads[t].key == Outcome(s.g, s.threads[t], a).0.key
    ensures s'.threads[t].begin == Outcome(s.g, s.threads[t], a).0.begin
  {
    hide Outcome, Enabled;
  }

  lemma PubIsOwn(run: seq<State>, j: nat, t: Tid)
    requires Behavior(run) && PubAt(run, j, t)
    ensures var th := run[j].threads[t]; Did(run, t, j, th.key, th.val, Published)
  {
    hide Behavior;
    var a := OwnStep(run, j, t);
    AfterPc(run[j], t, a, run[j + 1]);
    DeedNow(run, j, t, a, Published);
  }

  lemma MarkIsOwn(run: seq<State>, j: nat, t: Tid)
    requires Behavior(run) && MarkAt(run, j, t)
    ensures var th := run[j].threads[t]; Did(run, t, j, th.key, th.val, Marked)
  {
    hide Behavior;
    var a := OwnStep(run, j, t);
    AfterPc(run[j], t, a, run[j + 1]);
    DeedNow(run, j, t, a, Marked);
  }

  lemma SwapIsOwn(run: seq<State>, j: nat, t: Tid)
    requires Behavior(run) && SwapAt(run, j, t)
    ensures var th := run[j].threads[t]; Did(run, t, j, th.key, th.val, Swapped(th.pc.node))
    ensures run[j + 1].threads[t].pc == Returned(Insert, false)
  {
    hide Behavior;
    var a := OwnStep(run, j, t);
    AfterPc(run[j], t, a, run[j + 1]);
    DeedNow(run, j, t, a, Swapped(run[j].threads[t].pc.node));
  }

  // A step that neither publishes, nor marks, nor swaps the value of a live node
  // leaves the map alone.
  lemma QuietStep(run: seq<State>, j: nat)
    requires Behavior(run) && j < |run| - 1
    requires forall t :: !PubAt(run, j, t) && !MarkAt(run, j, t)
    requires forall t :: SwapAt(run, j, t) ==>
               run[j].threads[t].pc.node in run[j].g.nodes && run[j].g.nodes[run[j].threads[t].pc.node].marked
    ensures Contents(run[j + 1].g) == Contents(run[j].g)
  {
    hide Contents, Inv, Next, Init;
    assert StepAt(run, j);
    var t, a :| Next(run[j], t, a, run[j + 1]);
    AlwaysInv(run, j);
    assert !PubAt(run, j, t) && !MarkAt(run, j, t);
    StepShows(run, j, t, a);
    MapStep(run[j], t, a, run[j + 1]);
  }

  // A step that publishes, marks or swaps is seen by its program counter.
  lemma StepShows(run: seq<State>, j: nat, t: Tid, a: Action)
    requires j < |run| - 1 && Next(run[j], t, a, run[j + 1])
    ensures Moving(run, j, t)
    ensures Publishes(run[j].g, run[j].threads[t], a) ==> PubAt(run, j, t)
    ensures Marks(run[j].g, run[j].threads[t], a) ==> MarkAt(run, j, t)
    ensures Swaps(run[j].threads[t], a) ==> SwapAt(run, j, t)
  {
    hide Enabled, Outcome;
    AfterPc(run[j], t, a, run[j + 1]);
    OutcomeShows(run[j].g, run[j].threads[t], a);
  }

  lemma OutcomeShows(g: Shared, th: Thread, a: Action)
    requires Enabled(g, th, a)
    ensures var pc := Outcome(g, th, a).0.pc;
            && (Publishes(g, th, a) ==> pc.CountAdd?) && (Marks(g, th, a) ==> pc.Route?)
            && (Swaps(th, a) ==> pc.Returned?)
  {
    hide AfterLoad, Counted;
  }

  // ---------------------------------------------------------------------------
  // One operation, one deciding step
  // ---------------------------------------------------------------------------

  lemma KeepsOp(g: Shared, th: Thread, a: Action)
    requires Enabled(g, th, a) && !a.Begin?
    ensures var th' := Outcome(g, th, a).0;
            && th'.begin == th.begin && th'.key == th.key && th'.val == th.val && !th'.pc.Idle? && !th.pc.Idle?
  {
    hide AfterLoad, CasOk, Counted;
    if a.Go? && th.pc.Load? { AfterLoadPc(th, g.nodes[th.pc.curr]); }
  }

  lemma ThreadStep(s: State, u: Tid, a: Action, s': State, t: Tid)
    requires Next(s, u, a, s') && t in s.threads
    ensures t in s'.threads
    ensures u == t && a.Begin? ==> s'.threads[t].begin == s.g.clock + 1 && !s'.threads[t].pc.Idle?
    ensures !(u == t && a.Begin?) ==>
      && s'.threads[t].begin == s.threads[t].begin && s'.threads[t].key == s.threads[t].key
      && s'.threads[t].val == s.threads[t].val && s'.threads[t].pc.Idle? == s.threads[t].pc.Idle?
  {
    hide Enabled, Advance;
    if !a.Begin? { KeepsOp(s.g, s.threads[u], a); }
  }

  // Between its begin and now a thread is in the same operation.
  lemma {:induction false} SameOp(run: seq<State>, t: Tid, j: nat, i: nat)
    requires Behavior(run) && j <= i < |run| && t in run[i].threads && !run[i].threads[t].pc.Idle?
    requires run[i].threads[t].begin <= j
    ensures t in run[j].threads && !run[j].threads[t].pc.Idle?
    ensures run[j].threads[t].begin == run[i].threads[t].begin
    ensures run[j].threads[t].key == run[i].threads[t].key && run[j].threads[t].val == run[i].threads[t].val
  {
    hide Next, Init;
    if j < i {
      ClockIsIndex(run, i - 1);
      ClockIsIndex(run, i);
      assert StepAt(run, i - 1);
      var u, a :| Next(run[i - 1], u, a, run[i]);
      ThreadStep(run[i - 1], u, a, run[i], t);
      SameOp(run, t, j, i - 1);
    }
  }

  predicate Settled(pc: Pc) {
    HasAdded(pc) || HasDropped(pc) || pc.Returned?
  }

  lemma SettledStep(s: State, u: Tid, a: Action, s': State, t: Tid)
    requires Inv(s) && Next(s, u, a, s') && t in s.threads && Settled(s.threads[t].pc) && !(u == t && a.Begin?)
    ensures t in s'.threads && Settled(s'.threads[t].pc)
  {
    hide Inv;
    var th := s.threads[t];
    if u == t {
      SettledMove(s, t, a);
      AfterPc(s, t, a, s');
    } else {
      OthersStay(s, u, a, s', t);
    }
  }

  lemma SettledMove(s: State, t: Tid, a: Action)
    requires Inv(s) && t in s.threads && Enabled(s.g, s.threads[t], a) && Settled(s.threads[t].pc) && !a.Begin?
    ensures Settled(Outcome(s.g, s.threads[t], a).0.pc)
  {
    hide ListInv, ThreadOk, CasOk, AfterLoad, Counted;
    var g, th := s.g, s.threads[t];
    assert ListInv(g) && ThreadOk(g, th);
    RealNodes(g, th);
    if a.Go? && th.pc.Load? { AfterLoadPc(th, g.nodes[th.pc.curr]); }
  }

  lemma {:induction false} SettledOn(run: seq<State>, t: Tid, j: nat, i: nat)
    requires Behavior(run) && j <= i < |run| && t in run[j].threads && Settled(run[j].threads[t].pc)
    requires t in run[i].threads && run[i].threads[t].begin <= j && !run[i].threads[t].pc.Idle?
    ensures Settled(run[i].threads[t].pc)
  {
    hide Next, Init, Inv, Settled;
    if j < i {
      SameOp(run, t, i - 1, i);
      SettledOn(run, t, j, i - 1);
      ClockIsIndex(run, i - 1);
      AlwaysInv(run, i - 1);
      assert StepAt(run, i - 1);
      var u, a :| Next(run[i - 1], u, a, run[i]);
      ThreadStep(run[i - 1], u, a, run[i], t);
      SettledStep(run[i - 1], u, a, run[i], t);
    }
  }

  lemma SettledAfter(run: seq<State>, j: nat, t: Tid)
    requires Behavior(run) && Decides(run, j, t)
    ensures !Settled(run[j].threads[t].pc) && Settled(run[j + 1].threads[t].pc)
    ensures run[j].threads[t].begin == run[j + 1].threads[t].begin <= j && Active(run[j].threads[t])
  {
    hide Behavior, Inv, Next, Settled;
    var a := OwnStep(run, j, t);
    AlwaysInv(run, j);
    ClockIsIndex(run, j);
    Undecided(run, j, t, a);
    Began(run[j], t, a, run[j + 1]);
  }

  lemma Began(s: State, t: Tid, a: Action, s': State)
    requires Inv(s) && Next(s, t, a, s') && Active(s.threads[t])
    ensures s'.threads[t].begin == s.threads[t].begin <= s.g.clock
  {
    hide ListInv, ThreadInv, Enabled, Outcome;
    assert ThreadOk(s.g, s.threads[t]);
    NotBegin(s.g, s.threads[t], a);
    ThreadStep(s, t, a, s', t);
  }

  lemma NotBegin(g: Shared, th: Thread, a: Action)
    requires Enabled(g, th, a) && Active(th)
    ensures !a.Begin?
  {
  }

  lemma Undecided(run: seq<State>, j: nat, t: Tid, a: Action)
    requires Decides(run, j, t) && Inv(run[j]) && Next(run[j], t, a, run[j + 1])
    ensures !Settled(run[j].threads[t].pc) && Settled(run[j + 1].threads[t].pc) && Active(run[j].threads[t])
  {
    hide ListInv, ThreadOk, Enabled, Outcome;
    var g, th := run[j].g, run[j].threads[t];
    AfterPc(run[j], t, a, run[j + 1]);
    assert ListInv(g) && ThreadOk(g, th);
    if MarkAt(run, j, t) {
      NodeReal(g, th);
      MarkSettles(g, th, a);
    } else if AnswerAt(run, j, t) {
      NotBegin(g, th, a);
      AnswerSettles(g, th, a);
    }
  }

  lemma MarkSettles(g: Shared, th: Thread, a: Action)
    requires Enabled(g, th, a) && th.pc.Mark? && th.pc.node != NULL && Outcome(g, th, a).0.pc.Route?
    ensures Settled(Outcome(g, th, a).0.pc)
  {
  }

  lemma AnswerSettles(g: Shared, th: Thread, a: Action)
    requires Enabled(g, th, a) && Active(th) && !a.Begin? && Plain(Outcome(g, th, a).0.pc)
    ensures !Settled(th.pc)
  {
    hide AfterLoad, CasOk, Counted;
    if a.Go? && th.pc.Load? { AfterLoadPc(th, g.nodes[th.pc.curr]); }
  }

  lemma NodeReal(g: Shared, th: Thread)
    requires ListInv(g) && ThreadOk(g, th) && th.pc.Mark?
    ensures th.pc.node != NULL
  {
  }

  lemma OneDecision(run: seq<State>, t: Tid, j: nat, k: nat)
    requires Behavior(run) && Decides(run, j, t) && Decides(run, k, t)
    requires run[j].threads[t].begin == run[k].threads[t].begin
    ensures j == k
  {
    hide Behavior, Decides, Settled;
    SettledAfter(run, j, t);
    SettledAfter(run, k, t);
    DecidesWhere(run, j, t);
    DecidesWhere(run, k, t);
    if j < k { SettledOn(run, t, j + 1, k); }
    if k < j { SettledOn(run, t, k + 1, j); }
  }

  lemma DecidesWhere(run: seq<State>, j: int, t: Tid)
    requires Decides(run, j, t)
    ensures Moving(run, j, t) && Deciding(run, j)
  {
  }

  // The step by which an operation returned, and the registers have not changed since.
  lemma {:induction false} ReturnStep(run: seq<State>, i: nat, t: Tid) returns (j: nat)
    requires Behavior(run) && i < |run| && t in run[i].threads && run[i].threads[t].pc.Returned?
    ensures j < i && Moving(run, j, t) && Active(run[j].threads[t]) && run[j + 1].threads[t] == run[i].threads[t]
  {
    hide Next;
    ClockIsIndex(run, i - 1);
    ClockIsIndex(run, i);
    assert StepAt(run, i - 1);
    var u, a :| Next(run[i - 1], u, a, run[i]);
    if Active(run[i - 1].threads[t]) {
      j := i - 1;
    } else {
      Resting(run[i - 1], u, a, run[i], t);
      j := ReturnStep(run, i - 1, t);
    }
  }

  lemma Resting(s: State, u: Tid, a: Action, s': State, t: Tid)
    requires Next(s, u, a, s') && t in s.threads && !Active(s.threads[t])
    requires t in s'.threads && s'.threads[t].pc.Returned?
    ensures s'.threads[t] == s.threads[t]
  {
    hide Advance;
  }

  // Where the operation stands on its own step, if it claims a change.
  lemma OwnDecides(run: seq<State>, i: nat, t: Tid, th: Thread, d: Deed)
    requires Behavior(run) && i < |run| && t in run[i].threads && th == run[i].threads[t] && !th.pc.Idle?
    requires Own(run, i, t, th, d)
    ensures Decides(run, th.point, t) && run[th.point].threads[t].begin == th.begin
    ensures d.Published? ==> PubAt(run, th.point, t)
    ensures d.Marked? ==> MarkAt(run, th.point, t)
    ensures d.Swapped? ==> SwapAt(run, th.point, t) && run[th.point].threads[t].pc.node == d.n
  {
    hide Behavior;
    var a :| Next(run[th.point], t, a, run[th.point + 1]) && Does(run[th.point].g, run[th.point].threads[t], a, d);
    SameOp(run, t, th.point, i);
    AfterPc(run[th.point], t, a, run[th.point + 1]);
  }

  // Every operation that has returned was decided by one of its steps, with the
  // answer it gave.
  lemma Decided(run: seq<State>, i: nat, t: Tid) returns (j: nat)
    requires Behavior(run) && i < |run| && t in run[i].threads && run[i].threads[t].pc.Returned?
    ensures j < i && Decides(run, j, t) && Deciding(run, j)
    ensures run[j].threads[t].begin == run[i].threads[t].begin <= j && EventAt(run, j) == Outward(run[i].threads[t])
  {
    hide Behavior, Windows, ListInv, ThreadInv;
    var th := run[i].threads[t];
    ClockIsIndex(run, i);
    AlwaysWitnessed(run, i, t);
    AlwaysInv(run, i);
    assert ThreadOk(run[i].g, th);
    if th.pc.ok && !th.pc.goal.Get? {
      j := th.point;
      OwnDecides(run, i, t, th, if th.pc.goal.Insert? then Published else Marked);
    } else {
      j := ReturnStep(run, i, t);
      if th.pc.goal.Insert? { UpdateReturns(run, j, t); }
      assert Decides(run, j, t);
      SettledAfter(run, j, t);
    }
    OneActor(run, j, t);
  }

  lemma UpdateReturns(run: seq<State>, j: nat, t: Tid)
    requires Behavior(run) && Moving(run, j, t) && Active(run[j].threads[t])
    requires run[j + 1].threads[t].pc == Returned(Insert, false)
    ensures SwapAt(run, j, t)
  {
    hide Next, Init;
    assert StepAt(run, j);
    var u, a :| Next(run[j], u, a, run[j + 1]);
    if u != t {
      OthersStay(run[j], u, a, run[j + 1], t);
    } else {
      UpdateStep(run[j], t, a, run[j + 1]);
    }
  }

  lemma UpdateStep(s: State, t: Tid, a: Action, s': State)
    requires Next(s, t, a, s') && Active(s.threads[t]) && s'.threads[t].pc == Returned(Insert, false)
    ensures s.threads[t].pc.Update?
  {
    hide Enabled, Outcome;
    AfterPc(s, t, a, s');
    UpdateFrom(s.g, s.threads[t], a);
  }

  lemma UpdateFrom(g: Shared, th: Thread, a: Action)
    requires Enabled(g, th, a) && Active(th) && Outcome(g, th, a).0.pc == Returned(Insert, false)
    ensures th.pc.Update?
  {
    hide AfterLoad, CasOk, Counted;
    if a.Go? && th.pc.Load? { AfterLoadPc(th, g.nodes[th.pc.curr]); }
  }

  // ---------------------------------------------------------------------------
  // Where every operation belongs
  // ---------------------------------------------------------------------------

  ghost predicate RightNow(run: seq<State>, i: int, t: Tid) {
    0 <= i < |run| && t in run[i].threads && run[i].threads[t].pc.Returned? ==> Right(run, i, t, run[i].threads[t])
  }

  ghost predicate AnswersRight(run: seq<State>) {
    forall i, t {:trigger RightNow(run, i, t)} :: RightNow(run, i, t)
  }

  // In the state `time`, before its step: rank 0 for what leaves the map alone.
  // Rank 1 for what concerns a node that is just being removed, in the order of
  // the late writes: 2 * w for the write of step `w`, 2 * w + 1 for its readers.
  // Rank 2 for the step itself.
  datatype Point = Point(time: nat, rank: nat, sub: nat)

  ghost predicate LateSwap(run: seq<State>, j: nat, t: Tid, m: nat)
    requires SwapAt(run, j, t)
  {
    run[j].threads[t].begin <= m < j && Dies(run, m, run[j].threads[t].pc.node, run[j].threads[t].key)
  }

  predicate LiveAt(nodes: Heap, n: Ptr) { n in nodes && !nodes[n].marked }

  ghost predicate SwapPoint(run: seq<State>, j: nat, t: Tid, p: Point)
    requires SwapAt(run, j, t)
  {
    if LiveAt(run[j].g.nodes, run[j].threads[t].pc.node) then p == Point(j, 2, 0)
    else LateSwap(run, j, t, p.time) && p == Point(p.time, 1, 2 * j)
  }

  // An instant of the operation at which the answer is the map's.
  ghost predicate PlainPoint(run: seq<State>, j: nat, t: Tid, p: Point)
    requires AnswerAt(run, j, t)
  {
    && p == Point(p.time, 0, 0) && run[j].threads[t].begin <= p.time <= j + 1
    && Fits(Contents(run[p.time].g), Outward(run[j + 1].threads[t]))
  }

  ghost predicate LateRead(run: seq<State>, j: nat, t: Tid, l: Late)
    requires AnswerAt(run, j, t)
  {
    var th := run[j + 1].threads[t];
    && th.pc == Returned(Get, true) && LateWrite(run, t, th.begin, j + 1, th.key, th.got, l)
    && l.u in run[l.w].threads && run[l.w].threads[l.u].begin <= l.m
  }

  ghost predicate LatePoint(run: seq<State>, j: nat, t: Tid, p: Point)
    requires AnswerAt(run, j, t)
  {
    exists l :: LateRead(run, j, t, l) && p == Point(l.m, 1, 2 * l.w + 1)
  }

  ghost predicate PointOk(run: seq<State>, j: nat, t: Tid, p: Point)
    requires Decides(run, j, t)
  {
    if PubAt(run, j, t) || MarkAt(run, j, t) then p == Point(j, 2, 0)
    else if SwapAt(run, j, t) then SwapPoint(run, j, t, p)
    else PlainPoint(run, j, t, p) || LatePoint(run, j, t, p)
  }

  ghost predicate HasPoint(run: seq<State>, j: nat, t: Tid)
    requires Decides(run, j, t)
  {
    exists p :: PointOk(run, j, t, p)
  }

  ghost function PointOf(run: seq<State>, j: nat): (p: Point)
    requires Deciding(run, j)
    ensures HasPoint(run, j, Actor(run, j)) ==> PointOk(run, j, Actor(run, j), p)
  {
    if HasPoint(run, j, Actor(run, j)) then
      var p :| PointOk(run, j, Actor(run, j), p); p
    else Point(0, 0, 0)
  }

  lemma SwapHasPoint(run: seq<State>, j: nat, t: Tid)
    requires Behavior(run) && AnswersRight(run) && SwapAt(run, j, t)
    ensures exists p :: SwapPoint(run, j, t, p)
  {
    hide Behavior, Contents, Dies;
    var th := run[j].threads[t];
    if LiveAt(run[j].g.nodes, th.pc.node) {
      assert SwapPoint(run, j, t, Point(j, 2, 0));
    } else {
      SwapIsOwn(run, j, t);
      assert RightNow(run, j + 1, t);
      var th' := run[j + 1].threads[t];
      var n :| Replaced(run, j + 1, t, th', n);
      OwnDecides(run, j + 1, t, th', Swapped(n));
      SettledAfter(run, j, t);
      OneDecision(run, t, j, th'.point);
      SameOp(run, t, j, j + 1);
      var m: nat :| th'.begin <= m < th'.point && Dies(run, m, n, th'.key);
      assert SwapPoint(run, j, t, Point(m, 1, 2 * j));
    }
  }

  lemma AnswerHasPoint(run: seq<State>, j: nat, t: Tid)
    requires Behavior(run) && AnswersRight(run) && AnswerAt(run, j, t)
    ensures exists p :: PlainPoint(run, j, t, p) || LatePoint(run, j, t, p)
  {
    hide Behavior, Contents, Did, Dies;
    assert RightNow(run, j + 1, t);
    SettledAfter(run, j, t);
    var th := run[j + 1].threads[t];
    if th.pc == Returned(Get, true) && !WasEntry(run, th.begin, j + 1, th.key, th.got) {
      var l :| LateWrite(run, t, th.begin, j + 1, th.key, th.got, l)
        && l.u in run[l.w].threads && run[l.w].threads[l.u].begin <= l.m;
      assert LateRead(run, j, t, l);
      assert LatePoint(run, j, t, Point(l.m, 1, 2 * l.w + 1));
    } else if th.pc == Returned(Get, true) {
      var i: nat :| && Within(run, th.begin, i, j + 1) && th.key in Contents(run[i].g)
                    && Contents(run[i].g)[th.key] == th.got;
      assert PlainPoint(run, j, t, Point(i, 0, 0));
    } else {
      var i: nat :| Within(run, th.begin, i, j + 1) && th.key !in Contents(run[i].g);
      assert PlainPoint(run, j, t, Point(i, 0, 0));
    }
  }

  lemma PointIs(run: seq<State>, j: nat)
    requires Behavior(run) && AnswersRight(run) && Deciding(run, j)
    ensures PointOk(run, j, Actor(run, j), PointOf(run, j))
  {
    hide Behavior, AnswersRight, PlainPoint, LatePoint, SwapPoint;
    var t := Actor(run, j);
    if PubAt(run, j, t) || MarkAt(run, j, t) {
      assert PointOk(run, j, t, Point(j, 2, 0));
    } else if SwapAt(run, j, t) {
      SwapHasPoint(run, j, t);
      var p :| SwapPoint(run, j, t, p);
      assert PointOk(run, j, t, p);
    } else {
      AnswerHasPoint(run, j, t);
      var p :| PlainPoint(run, j, t, p) || LatePoint(run, j, t, p);
      assert PointOk(run, j, t, p);
    }
  }
}
