/** `block_on`: one thread drives one commit future, parking between polls.
  *
  * The signaller stores the flag, takes the waker, stores `awake` and unparks,
  * each a step of its own.  `park` consumes the thread's token or blocks until
  * there is one; it may return spuriously, and anybody may leave a stray token.
  */
module BlockOn {

  datatype Thread = Swap | Poll | Register | Recheck | Park | Blocked | Returned

  datatype Signal = Unsignalled | DoneSet | Waking | Unparking | Over

  datatype State = State(awake: bool, token: bool, done: bool, waker: bool, thread: Thread, sig: Signal)

  datatype Step = Run | Wake | Spurious | Stray

  function ThreadStep(s: State): State {
    match s.thread
    case Swap => if s.awake then s.(awake := false, thread := Poll) else s.(thread := Park)
    case Poll => s.(thread := if s.done then Returned else Register)
    case Register => s.(waker := true, thread := Recheck)
    case Recheck => s.(thread := if s.done then Returned else Swap)
    case Park => if s.token then s.(token := false, thread := Swap) else s.(thread := Blocked)
    case Blocked => if s.token then s.(token := false, thread := Swap) else s
    case Returned => s
  }

  function SignalStep(s: State): State {
    match s.sig
    case Unsignalled => s.(done := true, sig := DoneSet)
    case DoneSet => s.(waker := false, sig := if s.waker then Waking else Over)
    case Waking => s.(awake := true, sig := Unparking)
    case Unparking => s.(token := true, sig := Over)
    case Over => s
  }

  predicate Next(s: State, step: Step, s': State) {
    match step
    case Run => !s.thread.Returned? && (s.thread.Blocked? ==> s.token) && s' == ThreadStep(s)
    case Wake => !s.sig.Over? && s' == SignalStep(s)
    case Spurious => s.thread.Blocked? && s' == s.(thread := Swap)
    case Stray => s' == s.(token := true)
  }

  predicate Init(s: State) { s == State(true, s.token, false, false, Swap, Unsignalled) }

  // Outside a poll, the next poll is due: the flag is up, or its raising is coming.
  predicate Due(s: State) {
    s.awake || s.sig.Waking? || (s.waker && (s.sig.Unsignalled? || s.sig.DoneSet?))
  }

  predicate Inv(s: State) {
    && (s.done <==> !s.sig.Unsignalled?)
    && (s.thread.Swap? || s.thread.Park? || s.thread.Blocked? ==> Due(s))
    && (s.thread.Recheck? ==> s.done || s.waker)
    && ((s.thread.Park? || s.thread.Blocked?) && s.awake ==> s.token || s.sig.Unparking?)
    && (s.thread.Returned? ==> s.done)
  }

  function Left(s: State): nat {
    (match s.sig case Unsignalled => 48 case DoneSet => 36 case Waking => 24 case Unparking => 12 case Over => 0)
    + (if s.awake then 6 else 0) + (if s.token then 3 else 0)
    + (match s.thread
       case Swap => 2
       case Poll => 5
       case Register => 4
       case Recheck => 3
       case Park => 1
       case Blocked => 0
       case Returned => 0)
  }

  lemma StepKeepsInv(s: State, step: Step, s': State)
    requires Inv(s) && Next(s, step, s')
    ensures Inv(s') && (step.Run? || step.Wake? ==> Left(s') < Left(s))
  {
  }

  predicate StepAt(states: seq<State>, steps: seq<Step>, k: nat) {
    k < |steps| && k + 1 < |states| && Next(states[k], steps[k], states[k + 1])
  }

  predicate Execution(states: seq<State>, steps: seq<Step>) {
    && |states| == |steps| + 1 && Init(states[0])
    && forall k {:trigger StepAt(states, steps, k)} :: 0 <= k < |steps| ==> StepAt(states, steps, k)
  }

  lemma {:induction false} AlwaysInv(states: seq<State>, steps: seq<Step>, k: nat)
    requires Execution(states, steps) && k < |states|
    ensures Inv(states[k])
  {
    hide Inv, Next;
    if k == 0 {
      InitInv(states[0]);
    } else {
      AlwaysInv(states, steps, k - 1);
      assert StepAt(states, steps, k - 1);
      StepKeepsInv(states[k - 1], steps[k - 1], states[k]);
    }
  }

  lemma InitInv(s: State)
    requires Init(s)
    ensures Inv(s)
  {
  }

  // A blocked thread is never forgotten: the waker is still to be taken, or the
  // token is still to come.  And `block_on` returns only a ready future.
  lemma NeverForgotten(states: seq<State>, steps: seq<Step>, k: nat)
    requires Execution(states, steps) && k < |states|
    ensures states[k].thread.Returned? ==> states[k].done
    ensures
      var s := states[k];
      s.thread.Blocked? && !s.token ==>
        s.sig.Waking? || s.sig.Unparking? || (s.waker && (s.sig.Unsignalled? || s.sig.DoneSet?))
  {
    AlwaysInv(states, steps, k);
  }

  // Until it has returned there is a step to take, and apart from spurious
  // returns and stray tokens there are only finitely many: `block_on` returns.
  lemma {:induction false} Returns(states: seq<State>, steps: seq<Step>, k: nat)
    requires Execution(states, steps) && k < |states|
    requires forall j :: k <= j < |steps| ==> steps[j].Run? || steps[j].Wake?
    ensures |steps| - k <= Left(states[k])
    ensures !states[|steps|].thread.Returned? ==>
      Next(states[|steps|], Run, ThreadStep(states[|steps|])) ||
          Next(states[|steps|], Wake, SignalStep(states[|steps|]))
    decreases |steps| - k
  {
    AlwaysInv(states, steps, k);
    if k < |steps| {
      hide Inv, Next, Left, ThreadStep, SignalStep;
      assert StepAt(states, steps, k);
      StepKeepsInv(states[k], steps[k], states[k + 1]);
      Returns(states, steps, k + 1);
    }
  }
}

/** A client waiting for its request: spin on the flag for a while, then park
  * until it is set.  The worker stores the value, sets the flag and unparks.
  */
module ClientWait {
  import opened Keys

  datatype Answer = Nothing | Found(bytes: seq<Byte>)     // `Option<Vec<u8>>`

  const SPIN: nat := 2000

  datatype Thread = Spin(i: nat) | Check | Park | Blocked | Take | Returned(result: Answer)

  datatype Worker = Store(val: Answer) | SetDone | Unpark | Over

  datatype State = State(value: Answer, done: bool, token: bool, thread: Thread, worker: Worker)

  datatype Step = Run | Fulfil | Spurious | Stray

  // `value` starts out as `Nothing`, and taking it leaves `Nothing` behind.
  function ThreadStep(s: State): State {
    match s.thread
    case Spin(i) => s.(thread := if s.done then Take else if i + 1 < SPIN then Spin(i + 1) else Check)
    case Check => s.(thread := if s.done then Take else Park)
    case Park => if s.token then s.(token := false, thread := Check) else s.(thread := Blocked)
    case Blocked => if s.token then s.(token := false, thread := Check) else s
    case Take => s.(value := Nothing, thread := Returned(s.value))
    case Returned(_) => s
  }

  function WorkerStep(s: State): State {
    match s.worker
    case Store(v) => s.(value := v, worker := SetDone)
    case SetDone => s.(done := true, worker := Unpark)
    case Unpark => s.(token := true, worker := Over)
    case Over => s
  }

  predicate Next(s: State, step: Step, s': State) {
    match step
    case Run => !s.thread.Returned? && (s.thread.Blocked? ==> s.token) && s' == ThreadStep(s)
    case Fulfil => !s.worker.Over? && s' == WorkerStep(s)
    case Spurious => s.thread.Blocked? && s' == s.(thread := Check)
    case Stray => s' == s.(token := true)
  }

  predicate Inv(s: State, v: Answer) {
    && (s.worker.Store? ==> s.worker.val == v)
    && (s.done <==> s.worker.Unpark? || s.worker.Over?)
    && (!s.worker.Store? && !s.thread.Returned? ==> s.value == v)
    && (s.thread.Take? ==> s.done)
    && ((s.thread.Park? || s.thread.Blocked?) && s.done ==> s.token || s.worker.Unpark?)
    && (s.thread.Returned? ==> s.thread.result == v && s.done)
  }

  function Left(s: State): nat {
    (match s.worker case Store(_) => 30 case SetDone => 20 case Unpark => 10 case Over => 0)
    + (if s.token then 4 else 0)
    + (match s.thread
       case Spin(i) => 5 + (if i < SPIN then SPIN - i else 0)
       case Check => 3
       case Park => 2
       case Blocked => 0
       case Take => 1
       case Returned(_) => 0)
  }

  lemma StepKeepsInv(s: State, v: Answer, step: Step, s': State)
    requires Inv(s, v) && Next(s, step, s')
    ensures Inv(s', v) && (step.Run? || step.Fulfil? ==> Left(s') < Left(s))
  {
  }

  predicate StepAt(states: seq<State>, steps: seq<Step>, k: nat) {
    k < |steps| && k + 1 < |states| && Next(states[k], steps[k], states[k + 1])
  }

  // The worker fulfils with `v`.
  predicate Execution(states: seq<State>, steps: seq<Step>, v: Answer) {
    && |states| == |steps| + 1
    && states[0] == State(Nothing, false, states[0].token, Spin(0), Store(v))
    && forall k {:trigger StepAt(states, steps, k)} :: 0 <= k < |steps| ==> StepAt(states, steps, k)
  }

  lemma {:induction false} AlwaysInv(states: seq<State>, steps: seq<Step>, v: Answer, k: nat)
    requires Execution(states, steps, v) && k < |states|
    ensures Inv(states[k], v)
  {
    if k > 0 {
      hide Inv, Next;
      AlwaysInv(states, steps, v, k - 1);
      assert StepAt(states, steps, k - 1);
      StepKeepsInv(states[k - 1], v, steps[k - 1], states[k]);
    }
  }

  // The client gets exactly the value it was fulfilled with, and is never left
  // sleeping once that has happened: the token is there or about to be.
  lemma GetsTheValue(states: seq<State>, steps: seq<Step>, v: Answer, k: nat)
    requires Execution(states, steps, v) && k < |states|
    ensures states[k].thread.Returned? ==> states[k].thread.result == v
    ensures states[k].thread.Blocked? && states[k].done ==> states[k].token || states[k].worker.Unpark?
  {
    AlwaysInv(states, steps, v, k);
  }

  // The wait ends: until then a step is enabled, and only finitely many are not
  // spurious returns or stray tokens.
  lemma {:induction false} Returns(states: seq<State>, steps: seq<Step>, v: Answer, k: nat)
    requires Execution(states, steps, v) && k < |states|
    requires forall j :: k <= j < |steps| ==> steps[j].Run? || steps[j].Fulfil?
    ensures |steps| - k <= Left(states[k])
    ensures !states[|steps|].thread.Returned? ==>
      Next(states[|steps|], Run, ThreadStep(states[|steps|])) ||
      Next(states[|steps|], Fulfil, WorkerStep(states[|steps|]))
    decreases |steps| - k
  {
    AlwaysInv(states, steps, v, k);
    if k < |steps| {
      hide Inv, Next, Left, ThreadStep, WorkerStep;
      assert StepAt(states, steps, k);
      StepKeepsInv(states[k], v, steps[k], states[k + 1]);
      Returns(states, steps, v, k + 1);
    }
  }

  function Runs(steps: seq<Step>): nat {
    if steps == [] then 0 else Runs(steps[..|steps| - 1]) + (if steps[|steps| - 1].Run? then 1 else 0)
  }

  // A client parks only after it has looked at the flag often enough.
  lemma {:induction false} SpinsFirst(states: seq<State>, steps: seq<Step>, v: Answer, k: nat)
    requires Execution(states, steps, v) && k < |states|
    ensures states[k].thread.Spin? ==> states[k].thread.i == Runs(steps[..k]) < SPIN
    ensures states[k].thread.Check? || states[k].thread.Park? || states[k].thread.Blocked? ==> Runs(steps[..k]) >= SPIN
  {
    if k > 0 {
      SpinsFirst(states, steps, v, k - 1);
      assert StepAt(states, steps, k - 1);
      assert steps[..k][..k - 1] == steps[..k - 1];
    }
  }
}
