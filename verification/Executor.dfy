/** The executor and the commit futures it drives.
  *
  * One thread runs tasks; a task awaits commit futures one after the other.  For
  * each completion a signaller (the WAL batcher) stores the flag, takes the
  * waker, pushes its task onto the ready queue and notifies, as separate steps
  * that interleave with everything else.  What happens under the ready lock is
  * one step.  The condition variable may wake up spuriously, and a notification
  * reaches the runner only if it is asleep at that moment.
  *
  * A task's own code between two awaits may spawn tasks; so may the caller
  * before `run`.  Other threads may spawn at any time until `run` returns: they
  * count a task first, and then queue it without a notification.
  */
module Executor {
  import opened Common

  type TaskId = nat
  type CompId = nat

  // How far `Completion::signal` and the wake it causes have come.
  datatype Signal = Unsignalled | DoneSet | Waking(t: TaskId) | Notifying | Over

  datatype Completion = Completion(done: bool, waker: Option<TaskId>, sig: Signal)

  // `slot` is the future's place in a task: empty while it is polled and for
  // ever once it has completed.  `todo` is what the future still awaits.
  datatype Task = Task(slot: bool, todo: seq<CompId>)

  datatype Runner =
    | Outside                              // before `run`
    | Fetch
    | Asleep
    | Fetched(t: TaskId)
    | Poll(t: TaskId)
    | Register(t: TaskId)
    | Recheck(t: TaskId)
    | Returned

  datatype State = State(
    ready: seq<TaskId>, outstanding: nat, tasks: seq<Task>, comps: seq<Completion>, runner: Runner,
    arriving: set<TaskId>)   // counted by another thread's `spawn` and not queued yet

  // ---------------------------------------------------------------------------
  // The runner
  // ---------------------------------------------------------------------------

  // Under the ready lock: pop, or stop if no task is left, or wait.
  function FetchStep(s: State): State {
    if s.ready != [] then s.(ready := s.ready[1..], runner := Fetched(s.ready[0]))
    else if s.outstanding == 0 then s.(runner := Returned)
    else s.(runner := Asleep)
  }

  // Take the future out of its slot; an empty slot is a wake of a finished task.
  function TakeSlot(s: State, t: TaskId): State
    requires t < |s.tasks|
  {
    if s.tasks[t].slot then s.(tasks := s.tasks[t := s.tasks[t].(slot := false)], runner := Poll(t))
    else s.(runner := Fetch)
  }

  // The completion a task awaits, if it is not through.
  predicate Awaits(s: State, t: TaskId) {
    t < |s.tasks| && s.tasks[t].todo != [] && s.tasks[t].todo[0] < |s.comps|
  }

  // The awaited future is ready: on to the next one, or to the end of its task.
  function Resolve(s: State, t: TaskId): State
    requires t < |s.tasks| && s.tasks[t].todo != []
  {
    s.(tasks := s.tasks[t := s.tasks[t].(todo := s.tasks[t].todo[1..])], runner := Poll(t))
  }

  // First load of the flag in `CommitFuture::poll`, or the end of a task.
  function PollStep(s: State, t: TaskId): State
    requires t < |s.tasks|
  {
    if s.tasks[t].todo == [] then
      s.(outstanding := if s.outstanding > 0 then s.outstanding - 1 else 0, runner := Fetch)
    else if !Awaits(s, t) then s
    else if s.comps[s.tasks[t].todo[0]].done then Resolve(s, t)
    else s.(runner := Register(t))
  }

  function RegisterStep(s: State, t: TaskId): State
    requires Awaits(s, t)
  {
    var c := s.tasks[t].todo[0];
    s.(comps := s.comps[c := s.comps[c].(waker := Some(t))], runner := Recheck(t))
  }

  // Second load: still not done means `Pending`, and the future goes back.
  function RecheckStep(s: State, t: TaskId): State
    requires Awaits(s, t)
  {
    if s.comps[s.tasks[t].todo[0]].done then Resolve(s, t)
    else s.(tasks := s.tasks[t := s.tasks[t].(slot := true)], runner := Fetch)
  }

  // ---------------------------------------------------------------------------
  // The signaller of a completion
  // ---------------------------------------------------------------------------

  function SignalStep(s: State, c: CompId): State
    requires c < |s.comps|
  {
    var q := s.comps[c];
    match q.sig
    case Unsignalled => s.(comps := s.comps[c := q.(done := true, sig := DoneSet)])
    case DoneSet =>
      if q.waker.Some? then s.(comps := s.comps[c := q.(waker := None, sig := Waking(q.waker.value))])
      else s.(comps := s.comps[c := q.(sig := Over)])
    case Waking(t) => s.(ready := s.ready + [t], comps := s.comps[c := q.(sig := Notifying)])
    case Notifying =>
      s.(comps := s.comps[c := q.(sig := Over)], runner := if s.runner.Asleep? then Fetch else s.runner)
    case Over => s
  }

  // `spawn` by the thread that runs or will run all tasks.
  function Spawn(s: State, todo: seq<CompId>, n: nat): State {
    s.(tasks := s.tasks + [Task(true, todo)], outstanding := s.outstanding + 1, ready := s.ready + [|s.tasks|],
       comps := s.comps + seq(n, _ => Completion(false, None, Unsignalled)))
  }

  // `spawn` by another thread: the count, and later the push.
  function Announce(s: State, todo: seq<CompId>, n: nat): State {
    s.(tasks := s.tasks + [Task(true, todo)], outstanding := s.outstanding + 1, arriving := s.arriving + {|s.tasks|},
       comps := s.comps + seq(n, _ => Completion(false, None, Unsignalled)))
  }

  datatype Step = Enter | Run | Wake(c: CompId) | Spurious | SpawnTask(n: nat) | SpawnAway(n: nat) | Arrive(t: TaskId)

  // New tasks and spurious wakeups are not the executor's doing.
  predicate Forced(step: Step) { !step.Spurious? && !step.SpawnTask? && !step.SpawnAway? }

  // A new task awaits `n` records of its own: completions are never shared.
  function OwnComps(from: nat, n: nat): seq<CompId> { seq(n, k => from + k) }

  predicate Next(s: State, step: Step, s': State) {
    match step
    case Enter => s.runner.Outside? && s' == s.(runner := Fetch)
    case Run =>
      (match s.runner
       case Fetch => s' == FetchStep(s)
       case Fetched(t) => t < |s.tasks| && s' == TakeSlot(s, t)
       case Poll(t) => t < |s.tasks| && s' == PollStep(s, t)
       case Register(t) => Awaits(s, t) && s' == RegisterStep(s, t)
       case Recheck(t) => Awaits(s, t) && s' == RecheckStep(s, t)
       case _ => false)
    case Wake(c) => c < |s.comps| && !s.comps[c].sig.Over? && s' == SignalStep(s, c)
    case Spurious => s.runner.Asleep? && s' == s.(runner := Fetch)
    case SpawnTask(n) => (s.runner.Outside? || s.runner.Poll?) && s' == Spawn(s, OwnComps(|s.comps|, n), n)
    case SpawnAway(n) => !s.runner.Returned? && s' == Announce(s, OwnComps(|s.comps|, n), n)
    case Arrive(t) => t in s.arriving && s' == s.(ready := s.ready + [t], arriving := s.arriving - {t})
  }

  predicate Init(s: State) { s == State([], 0, [], [], Outside, {}) }

  // ---------------------------------------------------------------------------
  // Invariants
  // ---------------------------------------------------------------------------

  predicate Polling(r: Runner, t: TaskId) { (r.Poll? || r.Register? || r.Recheck?) && r.t == t }

  predicate Finished(s: State, t: TaskId)
    requires t < |s.tasks|
  {
    !s.tasks[t].slot && !Polling(s.runner, t)
  }

  // A wake for `t` is on its way: it is or will be queued, or the signaller of what it
  // awaits has its waker or will still take it.
  predicate WakeComing(s: State, t: TaskId)
    requires t < |s.tasks|
  {
    || t in s.ready || t in s.arriving || s.runner == Fetched(t)
    || (Awaits(s, t) && var q := s.comps[s.tasks[t].todo[0]];
        q.sig == Waking(t) || (q.waker == Some(t) && (q.sig.Unsignalled? || q.sig.DoneSet?)))
  }

  predicate TaskOk(s: State, t: TaskId)
    requires t < |s.tasks|
  {
    && (s.tasks[t].slot ==> WakeComing(s, t) && !Polling(s.runner, t))
    && (forall k :: 0 <= k < |s.tasks[t].todo| ==> s.tasks[t].todo[k] < |s.comps|)
    && (Finished(s, t) ==> s.tasks[t].todo == [])
  }

  // Two tasks never await the same completion, nor one task the same twice.
  predicate Apart(s: State, t: TaskId, u: TaskId)
    requires t < |s.tasks| && u < |s.tasks|
  {
    forall k, l :: 0 <= k < |s.tasks[t].todo| && 0 <= l < |s.tasks[u].todo| && (t != u || k != l) ==>
      s.tasks[t].todo[k] != s.tasks[u].todo[l]
  }

  predicate CompOk(s: State, c: CompId)
    requires c < |s.comps|
  {
    var q := s.comps[c];
    && (q.done <==> !q.sig.Unsignalled?)
    && (q.sig.Waking? ==> q.sig.t < |s.tasks|)
    && (q.waker.Some? ==> q.waker.value < |s.tasks|)
  }

  // After registering, the waker is there until the signaller takes it, and by
  // then the flag is set.
  predicate RunnerOk(s: State) {
    && (s.runner.Fetched? || s.runner.Poll? || s.runner.Register? || s.runner.Recheck? ==> s.runner.t < |s.tasks|)
    && (s.runner.Register? || s.runner.Recheck? ==> Awaits(s, s.runner.t))
    && (s.runner.Poll? || s.runner.Register? || s.runner.Recheck? ==> !s.tasks[s.runner.t].slot)
    && (s.runner.Recheck? ==>
          var q := s.comps[s.tasks[s.runner.t].todo[0]];
          q.done || (q.waker == Some(s.runner.t) && q.sig.Unsignalled?))
  }

  predicate NotifyComing(s: State) { exists c :: 0 <= c < |s.comps| && s.comps[c].sig.Notifying? }

  function Open(tasks: seq<Task>, r: Runner): nat {
    if tasks == [] then 0
    else
      var n := |tasks| - 1;
      Open(tasks[..n], r) + (if Live(tasks, r, n) then 1 else 0)
  }

  predicate Live(tasks: seq<Task>, r: Runner, t: TaskId) { t < |tasks| && (tasks[t].slot || Polling(r, t)) }

  ghost predicate Inv(s: State) {
    && (forall t {:trigger TaskOk(s, t)} :: 0 <= t < |s.tasks| ==> TaskOk(s, t))
    && (forall t, u {:trigger Apart(s, t, u)} :: 0 <= t < |s.tasks| && 0 <= u < |s.tasks| ==> Apart(s, t, u))
    && (forall c {:trigger CompOk(s, c)} :: 0 <= c < |s.comps| ==> CompOk(s, c))
    && (forall k :: 0 <= k < |s.ready| ==> s.ready[k] < |s.tasks|)
    && (forall t :: t in s.arriving ==> t < |s.tasks|)
    && RunnerOk(s)
    && s.outstanding == Open(s.tasks, s.runner)
    && (s.runner.Returned? ==> s.outstanding == 0) && (s.runner.Asleep? ==> s.outstanding > 0)
  }

  // A runner that sleeps on a queued task is about to be notified.
  predicate Alert(s: State) { s.runner.Asleep? && s.ready != [] ==> NotifyComing(s) }

  // ---------------------------------------------------------------------------
  // Counting the unfinished tasks
  // ---------------------------------------------------------------------------

  lemma LivePrefix(tasks: seq<Task>, r: Runner, n: nat, t: TaskId)
    requires t < n <= |tasks|
    ensures Live(tasks[..n], r, t) <==> Live(tasks, r, t)
  {
  }

  lemma {:induction false} OpenSame(tasks: seq<Task>, r: Runner, tasks': seq<Task>, r': Runner)
    requires |tasks'| == |tasks|
    requires forall t {:trigger Live(tasks', r', t)} :: 0 <= t < |tasks| ==>
        (Live(tasks', r', t) <==> Live(tasks, r, t))
    ensures Open(tasks', r') == Open(tasks, r)
  {
    hide Live;
    if tasks != [] {
      var n := |tasks| - 1;
      forall t | 0 <= t < n
        ensures Live(tasks'[..n], r', t) <==> Live(tasks[..n], r, t)
      {
        LivePrefix(tasks, r, n, t);
        LivePrefix(tasks', r', n, t);
        assert Live(tasks', r', t) <==> Live(tasks, r, t);
      }
      OpenSame(tasks[..n], r, tasks'[..n], r');
      assert Live(tasks', r', n) <==> Live(tasks, r, n);
    }
  }

  lemma {:induction false} OpenLess(tasks: seq<Task>, r: Runner, r': Runner, t: TaskId)
    requires Live(tasks, r, t) && !Live(tasks, r', t)
    requires forall u {:trigger Live(tasks, r', u)} :: 0 <= u < |tasks| && u != t ==>
        (Live(tasks, r', u) <==> Live(tasks, r, u))
    ensures Open(tasks, r') == Open(tasks, r) - 1
  {
    var n := |tasks| - 1;
    forall u | 0 <= u < n
      ensures (Live(tasks[..n], r', u) <==> Live(tasks, r', u)) && (Live(tasks[..n], r, u) <==> Live(tasks, r, u))
    {
      LivePrefix(tasks, r, n, u);
      LivePrefix(tasks, r', n, u);
    }
    if t == n {
      OpenSame(tasks[..n], r, tasks[..n], r');
    } else {
      assert Live(tasks, r', n) <==> Live(tasks, r, n);
      OpenLess(tasks[..n], r, r', t);
    }
  }

  lemma {:induction false} NoneOpen(tasks: seq<Task>, r: Runner)
    ensures Open(tasks, r) == 0 ==> forall t :: 0 <= t < |tasks| ==> !tasks[t].slot && !Polling(r, t)
  {
    if tasks != [] { NoneOpen(tasks[..|tasks| - 1], r); }
  }

  // ---------------------------------------------------------------------------
  // Every step keeps the invariant
  // ---------------------------------------------------------------------------

  // All tasks stay and the runner polls what it polled, or nothing before and after.
  lemma RunnerMoves(s: State, s': State)
    requires Inv(s) && s' == s.(runner := s'.runner, ready := s'.ready)
    requires forall t {:trigger Polling(s'.runner, t)} :: Polling(s'.runner, t) <==> Polling(s.runner, t)
    requires forall t: TaskId {:trigger t in s'.ready} :: (t in s.ready || s.runner == Fetched(t)) ==>
      (t in s'.ready || s'.runner == Fetched(t) || (t < |s.tasks| && !s.tasks[t].slot))
    requires RunnerOk(s') && forall k :: 0 <= k < |s'.ready| ==> s'.ready[k] < |s.tasks|
    requires (s'.runner.Returned? ==> s'.outstanding == 0) && (s'.runner.Asleep? ==> s'.outstanding > 0)
    ensures Inv(s')
  {
    hide Open, RunnerOk, NotifyComing, Polling;
    forall t | 0 <= t < |s'.tasks| ensures TaskOk(s', t) { assert TaskOk(s, t); }
    forall t, u | 0 <= t < |s'.tasks| && 0 <= u < |s'.tasks| ensures Apart(s', t, u) { assert Apart(s, t, u); }
    forall c | 0 <= c < |s'.comps| ensures CompOk(s', c) { assert CompOk(s, c); }
    OpenSame(s.tasks, s.runner, s'.tasks, s'.runner);
  }

  lemma FetchKeeps(s: State)
    requires Inv(s) && s.runner.Fetch?
    ensures Inv(FetchStep(s))
  {
    hide Open, TaskOk, Apart, CompOk;
    assert s.ready != [] ==> s.ready == [s.ready[0]] + s.ready[1..];
    RunnerMoves(s, FetchStep(s));
  }

  lemma TakeKeeps(s: State, t: TaskId)
    requires Inv(s) && s.runner == Fetched(t) && t < |s.tasks|
    ensures Inv(TakeSlot(s, t))
  {
    hide Open;
    var s' := TakeSlot(s, t);
    if s.tasks[t].slot {
      forall u | 0 <= u < |s'.tasks| ensures TaskOk(s', u) { assert TaskOk(s, u); }
      forall u, v | 0 <= u < |s'.tasks| && 0 <= v < |s'.tasks| ensures Apart(s', u, v) { assert Apart(s, u, v); }
      forall c | 0 <= c < |s'.comps| ensures CompOk(s', c) { assert CompOk(s, c); }
      OpenSame(s.tasks, s.runner, s'.tasks, s'.runner);
    } else {
      RunnerMoves(s, s');
    }
  }

  lemma ResolveKeeps(s: State, t: TaskId)
    requires Inv(s) && (s.runner.Poll? || s.runner.Recheck?) && s.runner.t == t && Awaits(s, t)
    ensures Inv(Resolve(s, t))
  {
    hide Open;
    var s' := Resolve(s, t);
    forall u | 0 <= u < |s'.tasks| ensures TaskOk(s', u) { assert TaskOk(s, u); }
    forall u, v | 0 <= u < |s'.tasks| && 0 <= v < |s'.tasks| ensures Apart(s', u, v) { assert Apart(s, u, v); }
    forall c | 0 <= c < |s'.comps| ensures CompOk(s', c) { assert CompOk(s, c); }
    OpenSame(s.tasks, s.runner, s'.tasks, s'.runner);
  }

  lemma CompleteKeeps(s: State, t: TaskId)
    requires Inv(s) && s.runner == Poll(t) && t < |s.tasks| && s.tasks[t].todo == []
    ensures Inv(PollStep(s, t))
  {
    hide Open;
    var s' := PollStep(s, t);
    OpenLess(s.tasks, s.runner, s'.runner, t);
    forall u | 0 <= u < |s'.tasks| ensures TaskOk(s', u) { assert TaskOk(s, u); }
    forall u, v | 0 <= u < |s'.tasks| && 0 <= v < |s'.tasks| ensures Apart(s', u, v) { assert Apart(s, u, v); }
    forall c | 0 <= c < |s'.comps| ensures CompOk(s', c) { assert CompOk(s, c); }
  }

  lemma PollKeeps(s: State, t: TaskId)
    requires Inv(s) && s.runner == Poll(t) && t < |s.tasks|
    ensures Inv(PollStep(s, t)) && (s.tasks[t].todo != [] ==> Awaits(s, t))
  {
    hide Open, Apart, CompOk;
    assert TaskOk(s, t);
    if s.tasks[t].todo == [] {
      CompleteKeeps(s, t);
    } else if s.comps[s.tasks[t].todo[0]].done {
      ResolveKeeps(s, t);
    } else {
      RunnerMoves(s, PollStep(s, t));
    }
  }

  lemma RegisterKeeps(s: State, t: TaskId)
    requires Inv(s) && s.runner == Register(t) && Awaits(s, t)
    ensures Inv(RegisterStep(s, t))
  {
    hide Open;
    var s' := RegisterStep(s, t);
    var c := s.tasks[t].todo[0];
    assert CompOk(s, c);
    forall u | 0 <= u < |s'.tasks| ensures TaskOk(s', u) {
      assert TaskOk(s, u) && Apart(s, t, u);
    }
    forall u, v | 0 <= u < |s'.tasks| && 0 <= v < |s'.tasks| ensures Apart(s', u, v) { assert Apart(s, u, v); }
    forall x | 0 <= x < |s'.comps| ensures CompOk(s', x) { assert CompOk(s, x); }
    OpenSame(s.tasks, s.runner, s'.tasks, s'.runner);
  }

  lemma RecheckKeeps(s: State, t: TaskId)
    requires Inv(s) && s.runner == Recheck(t) && Awaits(s, t)
    ensures Inv(RecheckStep(s, t))
  {
    hide Open;
    var s' := RecheckStep(s, t);
    if s.comps[s.tasks[t].todo[0]].done {
      ResolveKeeps(s, t);
    } else {
      forall u | 0 <= u < |s'.tasks| ensures TaskOk(s', u) { assert TaskOk(s, u); }
      forall u, v | 0 <= u < |s'.tasks| && 0 <= v < |s'.tasks| ensures Apart(s', u, v) { assert Apart(s, u, v); }
      forall c | 0 <= c < |s'.comps| ensures CompOk(s', c) { assert CompOk(s, c); }
      OpenSame(s.tasks, s.runner, s'.tasks, s'.runner);
    }
  }

  // The steps of a signaller: whoever was going to be woken still is.
  lemma SignalTasks(s: State, c: CompId)
    requires Inv(s) && c < |s.comps|
    ensures forall t {:trigger TaskOk(SignalStep(s, c), t)} :: 0 <= t < |s.tasks| ==> TaskOk(SignalStep(s, c), t)
  {
    hide Open, NotifyComing;
    var s' := SignalStep(s, c);
    forall t | 0 <= t < |s'.tasks|
      ensures TaskOk(s', t)
    {
      assert TaskOk(s, t);
      assert CompOk(s, c);
    }
  }

  lemma SignalKeeps(s: State, c: CompId)
    requires Inv(s) && c < |s.comps| && !s.comps[c].sig.Over?
    ensures Inv(SignalStep(s, c))
  {
    hide Open, TaskOk;
    var s' := SignalStep(s, c);
    SignalTasks(s, c);
    assert CompOk(s, c);
    forall u, v | 0 <= u < |s'.tasks| && 0 <= v < |s'.tasks| ensures Apart(s', u, v) { assert Apart(s, u, v); }
    forall x | 0 <= x < |s'.comps| ensures CompOk(s', x) { assert CompOk(s, x); }
    OpenSame(s.tasks, s.runner, s'.tasks, s'.runner);
  }

  lemma SignalNotifies(s: State, c: CompId)
    requires c < |s.comps| && Alert(s)
    ensures Alert(SignalStep(s, c))
  {
    var s' := SignalStep(s, c);
    if s.comps[c].sig.Waking? {
      assert s'.comps[c].sig.Notifying?;
    } else if s.runner.Asleep? && s.ready != [] && !s.comps[c].sig.Notifying? {
      var x :| 0 <= x < |s.comps| && s.comps[x].sig.Notifying?;
      assert s'.comps[x].sig.Notifying?;
    }
  }

  lemma SpawnKeeps(s: State, n: nat)
    requires Inv(s) && (s.runner.Outside? || s.runner.Poll?)
    ensures Inv(Spawn(s, OwnComps(|s.comps|, n), n))
  {
    hide Open;
    var s' := Spawn(s, OwnComps(|s.comps|, n), n);
    forall u | 0 <= u < |s'.tasks| ensures TaskOk(s', u) {
      assert u < |s.tasks| ==> TaskOk(s, u);
    }
    forall u, v | 0 <= u < |s'.tasks| && 0 <= v < |s'.tasks| ensures Apart(s', u, v) {
      assert u < |s.tasks| ==> TaskOk(s, u);
      assert v < |s.tasks| ==> TaskOk(s, v);
      assert u < |s.tasks| && v < |s.tasks| ==> Apart(s, u, v);
    }
    forall c | 0 <= c < |s'.comps| ensures CompOk(s', c) { assert c < |s.comps| ==> CompOk(s, c); }
    OpenOneMore(s.tasks, s.runner, s'.tasks[|s.tasks|]);
  }

  lemma AnnounceKeeps(s: State, n: nat)
    requires Inv(s) && !s.runner.Returned?
    ensures Inv(Announce(s, OwnComps(|s.comps|, n), n))
  {
    hide Open;
    var s' := Announce(s, OwnComps(|s.comps|, n), n);
    forall u | 0 <= u < |s'.tasks| ensures TaskOk(s', u) {
      assert u < |s.tasks| ==> TaskOk(s, u);
    }
    forall u, v | 0 <= u < |s'.tasks| && 0 <= v < |s'.tasks| ensures Apart(s', u, v) {
      assert u < |s.tasks| ==> TaskOk(s, u);
      assert v < |s.tasks| ==> TaskOk(s, v);
      assert u < |s.tasks| && v < |s.tasks| ==> Apart(s, u, v);
    }
    forall c | 0 <= c < |s'.comps| ensures CompOk(s', c) { assert c < |s.comps| ==> CompOk(s, c); }
    OpenOneMore(s.tasks, s.runner, s'.tasks[|s.tasks|]);
  }

  lemma ArriveKeeps(s: State, t: TaskId)
    requires Inv(s) && t in s.arriving
    ensures Inv(s.(ready := s.ready + [t], arriving := s.arriving - {t}))
  {
    hide Open;
    var s' := s.(ready := s.ready + [t], arriving := s.arriving - {t});
    forall u | 0 <= u < |s'.tasks| ensures TaskOk(s', u) { assert TaskOk(s, u); }
    forall u, v | 0 <= u < |s'.tasks| && 0 <= v < |s'.tasks| ensures Apart(s', u, v) { assert Apart(s, u, v); }
    forall c | 0 <= c < |s'.comps| ensures CompOk(s', c) { assert CompOk(s, c); }
  }

  lemma OpenOneMore(tasks: seq<Task>, r: Runner, t: Task)
    requires t.slot
    ensures Open(tasks + [t], r) == Open(tasks, r) + 1
  {
    assert (tasks + [t])[..|tasks|] == tasks;
  }

  lemma StepKeepsInv(s: State, step: Step, s': State)
    requires Inv(s) && Next(s, step, s')
    ensures Inv(s')
  {
    hide Open, TaskOk, Apart, CompOk, NotifyComing;
    match step {
      case Enter => RunnerMoves(s, s');
      case Run =>
        match s.runner {
          case Fetch => FetchKeeps(s);
          case Fetched(t) => TakeKeeps(s, t);
          case Poll(t) => PollKeeps(s, t);
          case Register(t) => RegisterKeeps(s, t);
          case Recheck(t) => RecheckKeeps(s, t);
          case _ =>
        }
      case Wake(c) => SignalKeeps(s, c);
      case Spurious => RunnerMoves(s, s');
      case SpawnTask(n) => SpawnKeeps(s, n);
      case SpawnAway(n) => AnnounceKeeps(s, n);
      case Arrive(t) => ArriveKeeps(s, t);
    }
  }

  // The runner is kept alert by every step but an arrival in its sleep.
  lemma StepKeepsAlert(s: State, step: Step, s': State)
    requires Next(s, step, s') && Alert(s) && (step.Arrive? ==> !s.runner.Asleep?)
    ensures Alert(s')
  {
    match step {
      case Wake(c) => SignalNotifies(s, c);
      case SpawnAway(n) =>
        if NotifyComing(s) {
          var c :| 0 <= c < |s.comps| && s.comps[c].sig.Notifying?;
          assert s'.comps[c].sig.Notifying?;
        }
      case _ =>
    }
  }

  // ---------------------------------------------------------------------------
  // Runs
  // ---------------------------------------------------------------------------

  predicate StepAt(states: seq<State>, steps: seq<Step>, k: nat) {
    k < |steps| && k + 1 < |states| && Next(states[k], steps[k], states[k + 1])
  }

  predicate Execution(states: seq<State>, steps: seq<Step>) {
    && |states| == |steps| + 1 && Init(states[0])
    && forall k {:trigger StepAt(states, steps, k)} :: 0 <= k < |steps| ==> StepAt(states, steps, k)
  }

  lemma {:induction false} AlwaysInv(states: seq<State>, steps: seq<Step>, k: nat)
    requires Execution(states, steps) && k < |states|
    ensures Inv(states[k])
  {
    hide Inv, Next;
    if k == 0 {
      InitInv(states[0]);
    } else {
      AlwaysInv(states, steps, k - 1);
      assert StepAt(states, steps, k - 1);
      StepKeepsInv(states[k - 1], steps[k - 1], states[k]);
    }
  }

  lemma InitInv(s: State)
    requires Init(s)
    ensures Inv(s)
  {
  }

  // No task has been queued by another thread while the runner slept.
  ghost predicate Undisturbed(states: seq<State>, steps: seq<Step>, k: nat) {
    forall j :: 0 <= j < k && j < |steps| && j < |states| && steps[j].Arrive? ==> !states[j].runner.Asleep?
  }

  lemma {:induction false} AlwaysAlert(states: seq<State>, steps: seq<Step>, k: nat)
    requires Execution(states, steps) && k < |states| && Undisturbed(states, steps, k)
    ensures Alert(states[k])
  {
    hide Alert, Next;
    if k == 0 {
      FirstAlert(states[0]);
    } else {
      AlwaysAlert(states, steps, k - 1);
      assert StepAt(states, steps, k - 1);
      StepKeepsAlert(states[k - 1], steps[k - 1], states[k]);
    }
  }

  lemma FirstAlert(s: State)
    requires Init(s)
    ensures Alert(s)
  {
  }

  // No lost wakeup: while the runner sleeps, every unfinished task is queued with
  // a notification coming, or is still to be queued, or its waker is with the
  // signaller or will be taken.
  lemma NoLostWakeup(states: seq<State>, steps: seq<Step>, k: nat, t: TaskId)
    requires Execution(states, steps) && k < |states| && states[k].runner.Asleep?
    requires t < |states[k].tasks| && !Finished(states[k], t)
    ensures
      var s := states[k];
      if t in s.ready then Undisturbed(states, steps, k) ==> NotifyComing(s)
      else
        || t in s.arriving
        || (&& Awaits(s, t)
            && var q := s.comps[s.tasks[t].todo[0]];
               q.sig == Waking(t) || (q.waker == Some(t) && (q.sig.Unsignalled? || q.sig.DoneSet?)))
  {
    hide Open, Apart, CompOk, NotifyComing, Next, Undisturbed;
    AlwaysInv(states, steps, k);
    if Undisturbed(states, steps, k) { AlwaysAlert(states, steps, k); }
    assert TaskOk(states[k], t);
  }

  // ---------------------------------------------------------------------------
  // A future resolves only once its flag is up
  // ---------------------------------------------------------------------------

  // The step spawns a task that awaits `n` records.
  predicate Spawns(step: Step, n: nat) {
    step == SpawnTask(n) || step == SpawnAway(n)
  }

  // Task `t` was spawned to await the `n` completions from `first` on: it has
  // gone through some of them, in order, and the flags of those are up.
  ghost predicate Through(s: State, t: TaskId, first: CompId, n: nat) {
    && t < |s.tasks| && first + n <= |s.comps| && |s.tasks[t].todo| <= n
    && (forall i :: 0 <= i < |s.tasks[t].todo| ==> s.tasks[t].todo[i] == first + n - |s.tasks[t].todo| + i)
    && (forall c :: first <= c < first + n - |s.tasks[t].todo| ==> s.comps[c].done)
  }

  // One step takes a task at most one await further, past a flag that is up, and
  // no flag goes down.
  lemma AwaitStep(s: State, step: Step, s': State, t: TaskId)
    requires Next(s, step, s') && t < |s.tasks|
    ensures t < |s'.tasks|
    ensures s'.tasks[t].todo == s.tasks[t].todo ||
            (Awaits(s, t) && s.comps[s.tasks[t].todo[0]].done && s'.tasks[t].todo == s.tasks[t].todo[1..])
  {
  }

  lemma FlagsStay(s: State, step: Step, s': State)
    requires Next(s, step, s')
    ensures |s.comps| <= |s'.comps| && forall c :: 0 <= c < |s.comps| && s.comps[c].done ==> s'.comps[c].done
  {
  }

  lemma ThroughStep(s: State, step: Step, s': State, t: TaskId, first: CompId, n: nat)
    requires Next(s, step, s') && Through(s, t, first, n)
    ensures Through(s', t, first, n)
  {
    hide Next;
    AwaitStep(s, step, s', t);
    FlagsStay(s, step, s');
  }

  lemma ThroughFirst(s: State, step: Step, s': State, n: nat)
    requires Next(s, step, s') && Spawns(step, n)
    ensures Through(s', |s.tasks|, |s.comps|, n) && |s'.tasks[|s.tasks|].todo| == n
    ensures |s'.tasks| == |s.tasks| + 1 && |s'.comps| == |s.comps| + n
  {
  }

  // Whatever a spawned task no longer awaits has its flag up.
  lemma {:induction false} ResolvedMeansDone(states: seq<State>, steps: seq<Step>, k: nat, n: nat, j: nat)
    requires Execution(states, steps) && k < j < |states| && Spawns(steps[k], n)
    ensures Through(states[j], |states[k].tasks|, |states[k].comps|, n)
    decreases j
  {
    hide Next, Init, Through;
    assert StepAt(states, steps, j - 1);
    if j == k + 1 {
      ThroughFirst(states[k], steps[k], states[j], n);
    } else {
      ResolvedMeansDone(states, steps, k, n, j - 1);
      ThroughStep(states[j - 1], steps[j - 1], states[j], |states[k].tasks|, |states[k].comps|, n);
    }
  }

  // Every completion came with a spawned task.
  lemma {:induction false} CompletionHasTask(states: seq<State>, steps: seq<Step>, j: nat, c: CompId)
      returns (k: nat, n: nat)
    requires Execution(states, steps) && j < |states| && c < |states[j].comps|
    ensures k < j && Spawns(steps[k], n) && |states[k].comps| <= c < |states[k].comps| + n
  {
    hide Next;
    assert j > 0;
    assert StepAt(states, steps, j - 1);
    if c < |states[j - 1].comps| {
      k, n := CompletionHasTask(states, steps, j - 1, c);
    } else {
      k := j - 1;
      n := NewComps(states[k], steps[k], states[j]);
    }
  }

  lemma NewComps(s: State, step: Step, s': State) returns (n: nat)
    requires Next(s, step, s') && |s'.comps| > |s.comps|
    ensures Spawns(step, n) && |s'.comps| == |s.comps| + n
  {
    n := |s'.comps| - |s.comps|;
  }

  // `run` returns only when every spawned task has completed, and then the flag of
  // every record a task was spawned with is up.
  lemma ReturnMeansAllDone(states: seq<State>, steps: seq<Step>, k: nat)
    requires Execution(states, steps) && k < |states| && states[k].runner.Returned?
    ensures AllDone(states[k])
  {
    hide Apart, CompOk, NotifyComing, Next;
    AlwaysInv(states, steps, k);
    var s := states[k];
    NoneOpen(s.tasks, s.runner);
    forall t | 0 <= t < |s.tasks| ensures Finished(s, t) && s.tasks[t].todo == [] { assert TaskOk(s, t); }
    forall c | 0 <= c < |s.comps| ensures s.comps[c].done {
      var j, n := CompletionHasTask(states, steps, k, c);
      ResolvedMeansDone(states, steps, j, n, k);
    }
  }

  predicate AllDone(s: State) {
    && (forall t :: 0 <= t < |s.tasks| ==> Finished(s, t) && s.tasks[t].todo == [])
    && (forall c :: 0 <= c < |s.comps| ==> s.comps[c].done)
  }

  // A completed future is never polled again: finished tasks stay finished.
  lemma {:induction false} FinishedForGood(states: seq<State>, steps: seq<Step>, a: nat, b: nat, t: TaskId)
    requires Execution(states, steps) && a <= b < |states| && t < |states[a].tasks| && Finished(states[a], t)
    ensures t < |states[b].tasks| && Finished(states[b], t)
    decreases b
  {
    hide Init;
    if a < b {
      FinishedForGood(states, steps, a, b - 1, t);
      assert StepAt(states, steps, b - 1);
    }
  }

  // ---------------------------------------------------------------------------
  // Progress: `run` always gets to return
  // ---------------------------------------------------------------------------

  function SignalLeft(q: Completion): nat {
    match q.sig
    case Unsignalled => 4
    case DoneSet => 3
    case Waking(_) => 2
    case Notifying => 1
    case Over => 0
  }

  function SignalsLeft(comps: seq<Completion>): nat {
    if comps == [] then 0 else SignalsLeft(comps[..|comps| - 1]) + SignalLeft(comps[|comps| - 1])
  }

  function AwaitsLeft(tasks: seq<Task>): nat {
    if tasks == [] then 0 else AwaitsLeft(tasks[..|tasks| - 1]) + |tasks[|tasks| - 1].todo|
  }

  lemma {:induction false} SignalsUpdate(comps: seq<Completion>, c: CompId, q: Completion)
    requires c < |comps|
    ensures SignalsLeft(comps[c := q]) + SignalLeft(comps[c]) == SignalsLeft(comps) + SignalLeft(q)
  {
    var n := |comps| - 1;
    if c == n {
      assert comps[c := q][..n] == comps[..n];
    } else {
      assert comps[c := q][..n] == comps[..n][c := q];
      SignalsUpdate(comps[..n], c, q);
    }
  }

  lemma {:induction false} AwaitsUpdate(tasks: seq<Task>, t: TaskId, q: Task)
    requires t < |tasks|
    ensures AwaitsLeft(tasks[t := q]) + |tasks[t].todo| == AwaitsLeft(tasks) + |q.todo|
  {
    var n := |tasks| - 1;
    if t == n {
      assert tasks[t := q][..n] == tasks[..n];
    } else {
      assert tasks[t := q][..n] == tasks[..n][t := q];
      AwaitsUpdate(tasks[..n], t, q);
    }
  }

  function RunnerLeft(r: Runner): nat {
    match r
    case Outside => 2
    case Fetch => 1
    case Asleep => 0
    case Fetched(_) => 6
    case Poll(_) => 5
    case Register(_) => 4
    case Recheck(_) => 3
    case Returned => 0
  }

  function Left(s: State): nat {
    12 * SignalsLeft(s.comps) + 10 * AwaitsLeft(s.tasks) + 10 * |s.ready| + 11 * |s.arriving| + RunnerLeft(s.runner)
  }

  lemma RunCounts(s: State, s': State)
    requires Inv(s) && Next(s, Run, s')
    ensures Left(s') < Left(s)
  {
    hide Apart, CompOk, NotifyComing, Open, SignalsLeft, AwaitsLeft, WakeComing;
    match s.runner {
      case Fetched(t) => AwaitsUpdate(s.tasks, t, s.tasks[t].(slot := false));
      case Poll(t) =>
        PollKeeps(s, t);
        if s.tasks[t].todo != [] { AwaitsUpdate(s.tasks, t, s.tasks[t].(todo := s.tasks[t].todo[1..])); }
      case Register(t) =>
        var c := s.tasks[t].todo[0];
        SignalsUpdate(s.comps, c, s.comps[c].(waker := Some(t)));
      case Recheck(t) =>
        AwaitsUpdate(s.tasks, t, s.tasks[t].(todo := s.tasks[t].todo[1..]));
        AwaitsUpdate(s.tasks, t, s.tasks[t].(slot := true));
      case _ =>
    }
  }

  // Every step but a spurious wakeup or a spawn uses up some of a finite amount.
  lemma EveryStepCounts(s: State, step: Step, s': State)
    requires Inv(s) && Next(s, step, s') && Forced(step)
    ensures Left(s') < Left(s)
  {
    hide Inv, SignalsLeft, AwaitsLeft;
    match step {
      case Run => RunCounts(s, s');
      case Wake(c) => SignalsUpdate(s.comps, c, s'.comps[c]);
      case Arrive(t) => assert |s'.arriving| == |s.arriving| - 1;
      case _ =>
    }
  }

  // The signaller will notify the runner, now or after it has woken a task.
  predicate WillNotify(q: Completion) {
    q.sig.Waking? || q.sig.Notifying? || (q.waker.Some? && (q.sig.Unsignalled? || q.sig.DoneSet?))
  }

  // The runner sleeps and nobody will notify it.
  predicate Lost(s: State) {
    s.runner.Asleep? && forall c :: 0 <= c < |s.comps| ==> !WillNotify(s.comps[c])
  }

  // ... and until `run` has returned or is lost such a step is always possible.
  lemma SomethingHappens(s: State) returns (step: Step, s': State)
    requires Inv(s) && !s.runner.Returned? && !Lost(s)
    ensures Next(s, step, s') && Forced(step)
  {
    hide Apart, CompOk, TaskOk, Open;
    match s.runner {
      case Outside => step, s' := Enter, s.(runner := Fetch);
      case Fetch => step, s' := Run, FetchStep(s);
      case Fetched(t) => step, s' := Run, TakeSlot(s, t);
      case Poll(t) => step, s' := Run, PollStep(s, t);
      case Register(t) => step, s' := Run, RegisterStep(s, t);
      case Recheck(t) => step, s' := Run, RecheckStep(s, t);
      case Asleep =>
        var c :| 0 <= c < |s.comps| && WillNotify(s.comps[c]);
        step, s' := Wake(c), SignalStep(s, c);
    }
  }

  // A sleeper that is not lost stays so until it is notified.
  lemma NotLostYet(s: State, step: Step, s': State)
    requires Inv(s) && Next(s, step, s') && s.runner.Asleep? && !Lost(s)
    ensures !Lost(s')
  {
    var c :| 0 <= c < |s.comps| && WillNotify(s.comps[c]);
    if s'.runner.Asleep? { assert WillNotify(s'.comps[c]); }
  }

  // Every unfinished task has been counted by another thread that has not queued
  // it yet, and no signaller will notify the runner.
  predicate Unqueued(s: State) {
    && s.ready == [] && s.outstanding > 0
    && (forall t :: 0 <= t < |s.tasks| && s.tasks[t].slot ==> t in s.arriving)
    && (forall c :: 0 <= c < |s.comps| ==> !WillNotify(s.comps[c]))
  }

  // The runner gets lost exactly when it looks for a task at such a moment.
  lemma GetsLost(s: State, step: Step, s': State)
    requires Inv(s) && Next(s, step, s') && !Lost(s)
    ensures Lost(s') <==> step.Run? && s.runner.Fetch? && Unqueued(s)
  {
    hide Apart, CompOk, Open, RunnerOk;
    if s.runner.Asleep? {
      NotLostYet(s, step, s');
    } else if Lost(s') {
      forall t | 0 <= t < |s.tasks| && s.tasks[t].slot ensures t in s.arriving {
        assert TaskOk(s, t);
      }
    }
  }

  // Once lost, the runner sleeps for ever, spurious wakeups apart: `run` does not return.
  lemma {:induction false} LostForGood(states: seq<State>, steps: seq<Step>, k: nat, j: nat)
    requires Execution(states, steps) && k <= j < |states| && Lost(states[k])
    requires forall i :: k <= i < j ==> !steps[i].Spurious?
    ensures Lost(states[j])
    decreases j
  {
    if k < j {
      LostForGood(states, steps, k, j - 1);
      assert StepAt(states, steps, j - 1);
    }
  }

  // It happens: another thread counts its task, `run` sees the count and no
  // task and goes to sleep, and that one is queued without waking it.
  lemma LostWakeup() returns (states: seq<State>, steps: seq<Step>)
    ensures Execution(states, steps) && Lost(states[|steps|])
    ensures 0 in states[|steps|].ready && |states[|steps|].tasks| == 1 && states[|steps|].tasks[0].todo == []
  {
    var s0 := State([], 0, [], [], Outside, {});
    var s1 := s0.(runner := Fetch);
    var s2 := Announce(s1, [], 0);
    var s3 := s2.(runner := Asleep);
    var s4 := s3.(ready := [0], arriving := {});
    states, steps := [s0, s1, s2, s3, s4], [Enter, SpawnAway(0), Run, Arrive(0)];
    assert OwnComps(0, 0) == [] && s2.comps == [];
    assert StepAt(states, steps, 0) && StepAt(states, steps, 1) && StepAt(states, steps, 2);
    assert s4.arriving == s3.arriving - {0};
    assert StepAt(states, steps, 3);
  }

  // Without spawns from other threads the runner is never lost.
  lemma {:induction false} NeverLostAlone(states: seq<State>, steps: seq<Step>, k: nat)
    requires Execution(states, steps) && k < |states| && forall j :: 0 <= j < k ==> !steps[j].SpawnAway?
    ensures states[k].arriving == {} && !Lost(states[k])
  {
    hide Inv;
    if k > 0 {
      NeverLostAlone(states, steps, k - 1);
      AlwaysInv(states, steps, k - 1);
      assert StepAt(states, steps, k - 1);
      GetsLost(states[k - 1], steps[k - 1], states[k]);
      if states[k - 1].runner.Fetch? && states[k - 1].outstanding > 0 { SomeSlot(states[k - 1]); }
    }
  }

  lemma SomeSlot(s: State)
    requires Inv(s) && s.runner.Fetch? && s.outstanding > 0
    ensures exists t :: 0 <= t < |s.tasks| && s.tasks[t].slot
  {
    hide Apart, CompOk, TaskOk, RunnerOk;
    SomeOpen(s.tasks, s.runner);
  }

  lemma {:induction false} SomeOpen(tasks: seq<Task>, r: Runner)
    ensures Open(tasks, r) > 0 ==> exists t :: 0 <= t < |tasks| && Live(tasks, r, t)
  {
    if tasks != [] {
      var n := |tasks| - 1;
      SomeOpen(tasks[..n], r);
      if Open(tasks[..n], r) > 0 {
        var t :| 0 <= t < n && Live(tasks[..n], r, t);
        LivePrefix(tasks, r, n, t);
      }
    }
  }

  // So a run without further spawns and spurious wakeups is at most `Left` steps
  // long, and if it cannot be continued then `run` has returned and every task
  // has completed, or the runner is lost.
  lemma {:induction false} RunEnds(states: seq<State>, steps: seq<Step>, k: nat)
    requires Execution(states, steps) && k < |states|
    requires forall j :: k <= j < |steps| ==> Forced(steps[j])
    ensures |steps| - k <= Left(states[k])
    ensures
      var s := states[|steps|];
      || (exists step: Step, s' :: Next(s, step, s') && Forced(step))
      || (s.runner.Returned? && AllDone(s))
      || Lost(s)
    decreases |steps| - k
  {
    hide Inv, Next, Left, AllDone, Lost;
    AlwaysInv(states, steps, k);
    if k < |steps| {
      assert StepAt(states, steps, k);
      EveryStepCounts(states[k], steps[k], states[k + 1]);
      RunEnds(states, steps, k + 1);
    } else if states[k].runner.Returned? {
      ReturnMeansAllDone(states, steps, k);
    } else if !Lost(states[k]) {
      var step, s' := SomethingHappens(states[k]);
    }
  }

  // ---------------------------------------------------------------------------
  // First come, first served
  // ---------------------------------------------------------------------------

  // What a step queues: a task that is spawned, that arrives, or that is woken.
  function Queues(s: State, step: Step): seq<TaskId> {
    match step
    case SpawnTask(_) => [|s.tasks|]
    case Arrive(t) => [t]
    case Wake(c) => if c < |s.comps| && s.comps[c].sig.Waking? then [s.comps[c].sig.t] else []
    case _ => []
  }

  // What a step takes from the queue.
  function Serves(s: State, s': State): seq<TaskId> {
    if s'.runner.Fetched? && s.runner.Fetch? then [s'.runner.t] else []
  }

  function AllQueued(states: seq<State>, steps: seq<Step>, k: nat): seq<TaskId>
    requires k <= |steps| && k <= |states|
  {
    if k == 0 then [] else AllQueued(states, steps, k - 1) + Queues(states[k - 1], steps[k - 1])
  }

  function AllServed(states: seq<State>, k: nat): seq<TaskId>
    requires k < |states|
  {
    if k == 0 then [] else AllServed(states, k - 1) + Serves(states[k - 1], states[k])
  }

  lemma QueueStep(s: State, step: Step, s': State)
    requires Next(s, step, s')
    ensures s.ready + Queues(s, step) == Serves(s, s') + s'.ready
  {
    hide Awaits;
    if step.Run? && s.runner.Fetch? && s.ready != [] { assert s.ready == [s.ready[0]] + s.ready[1..]; }
  }

  lemma Regroup(served: seq<TaskId>, ready: seq<TaskId>, queued: seq<TaskId>, next: seq<TaskId>, ready': seq<TaskId>)
    requires ready + queued == next + ready'
    ensures (served + ready) + queued == (served + next) + ready'
  {
    assert (served + ready) + queued == served + (ready + queued);
  }

  // Tasks are polled in the order in which they became ready.
  lemma {:induction false} FirstComeFirstServed(states: seq<State>, steps: seq<Step>, k: nat)
    requires Execution(states, steps) && k < |states|
    ensures AllQueued(states, steps, k) == AllServed(states, k) + states[k].ready
  {
    hide Next, Queues, Serves;
    if k > 0 {
      var s, s' := states[k - 1], states[k];
      FirstComeFirstServed(states, steps, k - 1);
      assert StepAt(states, steps, k - 1);
      QueueStep(s, steps[k - 1], s');
      Regroup(AllServed(states, k - 1), s.ready, Queues(s, steps[k - 1]), Serves(s, s'), s'.ready);
    }
  }
}
