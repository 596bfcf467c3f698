/** What a call asks for is what is carried out: operations on the list, and their
  * places in the one order, tied to the calls themselves.
  */
module BottomCalls {
  import opened Common
  import opened BottomList
  import opened BottomLinear
  import opened BottomOrder
  import opened BottomHistory

  // ---------------------------------------------------------------------------
  // Calls
  // ---------------------------------------------------------------------------

  // Which call a search belongs to.
  function Kind(goal: Goal): Goal {
    match goal
    case Help => Insert
    case Unlink(_) => Remove
    case _ => goal
  }

  // Which call a thread is in.
  function Aim(pc: Pc): Option<Goal> {
    match pc
    case Idle => None
    case Route(goal, _) => Some(Kind(goal))
    case Load(goal, _, _) => Some(Kind(goal))
    case Splice(goal, _, _, _) => Some(Kind(goal))
    case Publish(_, _) => Some(Insert)
    case CountAdd => Some(Insert)
    case Update(_) => Some(Insert)
    case ReadMark(_) => Some(Get)
    case LoadValue(_) => Some(Get)
    case LoadSucc(_) => Some(Remove)
    case Mark(_, _) => Some(Remove)
    case Recheck(_) => Some(Remove)
    case CountSub(_) => Some(Remove)
    case Retire(_) => Some(Remove)
    case Returned(goal, _) => Some(goal)
  }

  // Step `j` of the run is a call by thread `t`.
  ghost predicate CallAt(run: seq<State>, j: nat, t: Tid, goal: Goal, key: real, val: Value) {
    j + 1 < |run| && Next(run[j], t, Begin(goal, key, val), run[j + 1])
  }

  lemma BeginStep(s: State, t: Tid, goal: Goal, key: real, val: Value, s': State)
    requires Next(s, t, Begin(goal, key, val), s')
    ensures t in s'.threads
    ensures
      var th := s'.threads[t];
      && th.key == key && th.val == val && Aim(th.pc) == Some(goal) && th.begin == s.g.clock + 1
      && (goal.Insert? || goal.Remove? || goal.Get?)
  {
  }

  // No step of a call turns it into another.
  lemma AimStays(s: State, u: Tid, a: Action, s': State, t: Tid)
    requires Next(s, u, a, s') && t in s.threads && !(u == t && a.Begin?)
    ensures t in s'.threads && Aim(s'.threads[t].pc) == Aim(s.threads[t].pc)
  {
    if u == t {
      OwnAim(s.g, s.threads[t], a);
      AfterPc(s, t, a, s');
    } else {
      OthersStay(s, u, a, s', t);
    }
  }

  lemma OwnAim(g: Shared, th: Thread, a: Action)
    requires Enabled(g, th, a) && !a.Begin?
    ensures Aim(Outcome(g, th, a).0.pc) == Aim(th.pc)
  {
    hide Advance;
    if a.Go? { AdvanceAim(g, th, a.memory); }
  }

  lemma AdvanceAim(g: Shared, th: Thread, n: Ptr)
    requires Enabled(g, th, Go(n))
    ensures Aim(Advance(g, th, n).0.pc) == Aim(th.pc)
  {
    hide CasOk, Counted, AfterLoad;
    if th.pc.Load? { AfterLoadAim(th, g.nodes[th.pc.curr]); }
  }

  lemma AfterLoadAim(th: Thread, node: Node)
    requires th.pc.Load?
    ensures Aim(AfterLoad(th, node)) == Aim(th.pc)
  {
  }

  // As long as a thread is in the operation a call began, it works on the key and the
  // value of the call, to the end the call asked for.
  lemma {:induction false} AsAsked(run: seq<State>, j: nat, t: Tid, goal: Goal, key: real, val: Value, i: nat)
    requires Behavior(run) && CallAt(run, j, t, goal, key, val)
    requires j < i < |run| && t in run[i].threads && run[i].threads[t].begin == j + 1
    ensures var th := run[i].threads[t]; th.key == key && th.val == val && Aim(th.pc) == Some(goal)
  {
    hide Next, Init, Aim;
    if i == j + 1 {
      BeginStep(run[j], t, goal, key, val, run[i]);
    } else {
      ClockIsIndex(run, i - 1);
      assert StepAt(run, i - 1);
      var u, a :| Next(run[i - 1], u, a, run[i]);
      SameThreads(run[i - 1], u, a, run[i], t);
      ThreadStep(run[i - 1], u, a, run[i], t);
      AsAsked(run, j, t, goal, key, val, i - 1);
      AimStays(run[i - 1], u, a, run[i], t);
    }
  }

  lemma SameThreads(s: State, u: Tid, a: Action, s': State, t: Tid)
    requires Next(s, u, a, s') && t in s'.threads
    ensures t in s.threads
  {
  }

  // And every operation was begun by a call.
  lemma {:induction false} Asked(run: seq<State>, i: nat, t: Tid) returns (j: nat, goal: Goal)
    requires Behavior(run) && i < |run| && t in run[i].threads && !run[i].threads[t].pc.Idle?
    ensures
      var th := run[i].threads[t];
      && j < i && th.begin == j + 1 && CallAt(run, j, t, goal, th.key, th.val) && Aim(th.pc) == Some(goal)
  {
    hide Next, Aim;
    ClockIsIndex(run, i - 1);
    assert StepAt(run, i - 1);
    var u, a :| Next(run[i - 1], u, a, run[i]);
    SameThreads(run[i - 1], u, a, run[i], t);
    ThreadStep(run[i - 1], u, a, run[i], t);
    if u == t && a.Begin? {
      j, goal := i - 1, a.goal;
      BeginStep(run[j], t, goal, a.key, a.val, run[i]);
    } else {
      j, goal := Asked(run, i - 1, t);
      AimStays(run[i - 1], u, a, run[i], t);
    }
  }

  // ---------------------------------------------------------------------------
  // Calls in the one order
  // ---------------------------------------------------------------------------

  // What a call did, given what it returned.
  function Carried(goal: Goal, key: real, val: Value, ok: bool, got: Value): Event {
    match goal
    case Get => Look(key, if ok then Some(got) else None)
    case Remove => Rem(key, ok)
    case _ => Ins(key, val, ok)
  }

  // A call that has returned is in the order, at a step of its own between its begin and
  // its return, as what it asked for and what it returned.
  lemma CallIsInOrder(run: seq<State>, j: nat, t: Tid, goal: Goal, key: real, val: Value, i: nat) returns (a: nat)
    requires Behavior(run) && AnswersRight(run) && CallAt(run, j, t, goal, key, val)
    requires j < i < |run| && t in run[i].threads && run[i].threads[t].begin == j + 1
    requires run[i].threads[t].pc.Returned?
    ensures
      var h, th := Order(run), run[i].threads[t];
      && a < |h| && j < h[a] < i && Decides(run, h[a], t)
      && EventOf(run, h[a]) == Carried(goal, key, val, th.pc.ok, th.got)
  {
    hide Behavior, AnswersRight, Order, CallAt, EventOf, Decides;
    AsAsked(run, j, t, goal, key, val, i);
    a := Answered(run, i, t);
    SettledAfter(run, Order(run)[a], t);
  }
}
