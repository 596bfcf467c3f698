/** What a client's call asks for is what is carried out: requests and the log of
  * effects tied to the calls themselves.
  */
module ServiceCalls {
  import opened Common
  import opened Keys
  import opened Matrix
  import opened Service
  import opened ServiceRuns

  // ---------------------------------------------------------------------------
  // Calls
  // ---------------------------------------------------------------------------

  predicate Calls(step: Step) {
    step.ClientPut? || step.ClientGet? || step.ClientGetRoundRobin?
  }

  // The operation a call is for.
  function Wanted(step: Step): Op
    requires Calls(step)
  {
    match step
    case ClientPut(k, v) => Put(k, v)
    case ClientGet(k) => Get(k)
    case ClientGetRoundRobin(k, _) => Get(k)
  }

  // The worker it is sent to.
  function Addressee(n: nat, step: Step): nat
    requires Calls(step) && n > 0
  {
    match step
    case ClientPut(k, _) => Home(n, k)
    case ClientGet(k) => Home(n, k)
    case ClientGetRoundRobin(_, c) => c % n
  }

  lemma CallStep(s: State, step: Step, s': State)
    requires Next(s, step, s') && Calls(step) && s.sh.n > 0
    ensures |s'.sh.reqs| == |s.sh.reqs| + 1 && s'.sh.reqs[|s.sh.reqs|].op == Wanted(step)
    ensures s'.sh.reqs[|s.sh.reqs|].stage == Queued(Addressee(s.sh.n, step))
    ensures s'.sh.reqs[|s.sh.reqs|].begin == |s.sh.log| && s'.sh.log == s.sh.log
  {
  }

  // No step changes what a request is for, and only a call makes one.
  lemma OpsStay(s: State, step: Step, s': State)
    requires Inv(s) && Next(s, step, s')
    ensures |s.sh.reqs| <= |s'.sh.reqs| && forall r :: 0 <= r < |s.sh.reqs| ==> s'.sh.reqs[r].op == s.sh.reqs[r].op
    ensures !Calls(step) ==> |s'.sh.reqs| == |s.sh.reqs|
  {
    hide SharedOk, WorkerOk, Home, Inv;
    StepForward(s, step, s');
  }

  // In every later state the request a call made is for what the call asked, and so is
  // its effect once it has taken place.
  lemma {:induction false} AsCalled(states: seq<State>, steps: seq<Step>, k: nat, j: nat)
    requires Run(states, steps) && k < j < |states| && Calls(steps[k])
    ensures
      var sh, r := states[j].sh, |states[k].sh.reqs|;
      && r < |sh.reqs| && sh.reqs[r].op == Wanted(steps[k])
      && (Effected(sh.reqs[r].stage) ==> sh.reqs[r].at < |sh.log| && sh.log[sh.reqs[r].at].req == r
                                         && sh.log[sh.reqs[r].at].op == Wanted(steps[k]))
  {
    hide Inv, Next, Init;
    AlwaysInv(states, steps, j - 1);
    AlwaysInv(states, steps, j);
    assert StepAt(states, steps, j - 1);
    if j == k + 1 {
      Workers(states[k]);
      CallStep(states[k], steps[k], states[j]);
    } else {
      AsCalled(states, steps, k, j - 1);
      OpsStay(states[j - 1], steps[j - 1], states[j]);
    }
    LoggedAs(states[j], |states[k].sh.reqs|);
  }

  lemma Workers(s: State)
    requires Inv(s)
    ensures s.sh.n > 0
  {
  }

  lemma LoggedAs(s: State, r: Id)
    requires Inv(s) && r < |s.sh.reqs|
    ensures Effected(s.sh.reqs[r].stage) ==>
      var q := s.sh.reqs[r];
      q.at < |s.sh.log| && s.sh.log[q.at] == Event(r, q.op, q.stage.val)
  {
    hide TransitOk, AllFound, WorkerOk, Legal;
    assert RequestOk(s.sh, r);
  }

  // Conversely every request was made by one call.
  lemma {:induction false} MadeByCall(states: seq<State>, steps: seq<Step>, j: nat, r: Id) returns (k: nat)
    requires Run(states, steps) && j < |states| && r < |states[j].sh.reqs|
    ensures k < j && Calls(steps[k]) && r == |states[k].sh.reqs|
  {
    hide Inv, Next;
    assert j > 0;
    AlwaysInv(states, steps, j - 1);
    assert StepAt(states, steps, j - 1);
    if r < |states[j - 1].sh.reqs| {
      k := MadeByCall(states, steps, j - 1, r);
    } else {
      k := j - 1;
      OpsStay(states[k], steps[k], states[j]);
      Workers(states[k]);
      if Calls(steps[k]) { CallStep(states[k], steps[k], states[j]); }
    }
  }

  // So every logged effect is that of a call, the operation it asked for.
  lemma LogIsCalls(states: seq<State>, steps: seq<Step>, j: nat, p: nat) returns (k: nat)
    requires Run(states, steps) && j < |states| && p < |states[j].sh.log|
    ensures
      var sh := states[j].sh;
      && k < j && Calls(steps[k]) && sh.log[p].op == Wanted(steps[k]) && sh.log[p].req == |states[k].sh.reqs|
      && sh.log[p].req < |sh.reqs| && sh.reqs[sh.log[p].req].at == p
  {
    hide TransitOk, AllFound, WorkerOk, Legal, Next, Init;
    AlwaysInv(states, steps, j);
    var sh := states[j].sh;
    assert EventOk(sh, p);
    assert RequestOk(sh, sh.log[p].req);
    k := MadeByCall(states, steps, j, sh.log[p].req);
    AsCalled(states, steps, k, j);
  }

  // ---------------------------------------------------------------------------
  // Reading one's puts
  // ---------------------------------------------------------------------------

  predicate PutsTo(op: Op, key: Key) { op.Put? && op.key == key }

  // The last put to a key decides what the map has.
  lemma {:induction false} LastPutCounts(log: seq<Event>, p: nat, n: nat, key: Key)
    requires p < n <= |log| && PutsTo(log[p].op, key)
    requires forall q :: p < q < n ==> !PutsTo(log[q].op, key)
    ensures Look(Replay(log[..n]), key) == Some(log[p].op.val)
    decreases n
  {
    assert log[..n][..n - 1] == log[..n - 1];
    if p < n - 1 { LastPutCounts(log, p, n - 1, key); }
  }

  // The call is the only put to the key among the first `j` steps.
  predicate OnlyPut(steps: seq<Step>, j: nat, k: nat, key: Key) {
    && k < j <= |steps|
    && forall i :: 0 <= i < j && steps[i].ClientPut? && steps[i].k == key ==> i == k
  }

  // A get that is submitted after a put of its key has returned, and answers while no
  // other put of the key has been submitted, returns the value of that put.
  lemma GetReturnsThePut(states: seq<State>, steps: seq<Step>, a: nat, mid: nat, b: nat, j: nat, key: Key, val: Value)
    requires Run(states, steps) && a < mid <= b < j < |states|
    requires steps[a] == ClientPut(key, val) && OnlyPut(steps, j, a, key)
    requires Calls(steps[b]) && Wanted(steps[b]) == Get(key)
    requires |states[a].sh.reqs| < |states[mid].sh.reqs| && states[mid].sh.reqs[|states[a].sh.reqs|].result.Some?
    requires |states[b].sh.reqs| < |states[j].sh.reqs| && states[j].sh.reqs[|states[b].sh.reqs|].result.Some?
    ensures states[j].sh.reqs[|states[b].sh.reqs|].result.value == Some(val)
  {
    hide Inv, Next, Init, Execution, Replay, Look, Calls, Wanted;
    var sh := states[j].sh;
    var r, r' := |states[a].sh.reqs|, |states[b].sh.reqs|;
    CallsAre(steps[a], key, val);
    AsCalled(states, steps, a, j);
    AsCalled(states, steps, b, j);
    HistoryGrows(states, steps, mid, b);
    Answers(states, steps, j, r');
    RealTimeOrder(states, steps, mid, j, r, r');
    Answers(states, steps, j, r);
    var p, n := sh.reqs[r].at, sh.reqs[r'].at;
    forall q | p < q < n ensures !PutsTo(sh.log[q].op, key) {
      var k := LogIsCalls(states, steps, j, q);
      if PutsTo(sh.log[q].op, key) { PutCall(steps[k], key); }
    }
    LastPutCounts(sh.log, p, n, key);
  }

  lemma CallsAre(step: Step, key: Key, val: Value)
    requires step == ClientPut(key, val)
    ensures Calls(step) && Wanted(step) == Put(key, val)
  {
  }

  lemma PutCall(step: Step, key: Key)
    requires Calls(step) && PutsTo(Wanted(step), key)
    ensures step.ClientPut? && step.k == key
  {
  }

  lemma Answers(states: seq<State>, steps: seq<Step>, j: nat, r: Id)
    requires Run(states, steps) && j < |states| && r < |states[j].sh.reqs| && states[j].sh.reqs[r].result.Some?
    ensures
      var sh := states[j].sh;
      var q := sh.reqs[r];
      && Effected(q.stage) && q.at < |sh.log| && sh.log[q.at].op == q.op
      && q.result.value == Respond(Replay(sh.log[..q.at]), q.op)
  {
    hide TransitOk, AllFound, WorkerOk, Legal, Next, Init, Replay;
    AlwaysInv(states, steps, j);
    Linearizable(states, steps, j, r);
    assert RequestOk(states[j].sh, r);
  }

  // ---------------------------------------------------------------------------
  // Round robin
  // ---------------------------------------------------------------------------

  function Draws(steps: seq<Step>): nat {
    if steps == [] then 0 else Draws(steps[..|steps| - 1]) + (if steps[|steps| - 1].ClientDraw? then 1 else 0)
  }

  lemma DrawStep(s: State, step: Step, s': State)
    requires Next(s, step, s')
    ensures s'.sh.rr == if step.ClientDraw? then (s.sh.rr + 1) % WORD else s.sh.rr
    ensures step.ClientDraw? ==> s'.sh.drawn == s.sh.drawn + multiset{s.sh.rr}
    ensures step.ClientGetRoundRobin? ==> step.c in s.sh.drawn && s'.sh.drawn == s.sh.drawn - multiset{step.c}
  {
    if step.Work? { WorkLeavesCounter(s.sh, step.i, s.workers[step.i]); }
  }

  lemma WorkLeavesCounter(sh: Shared, i: nat, w: Worker)
    ensures WorkerStep(sh, i, w).sh.rr == sh.rr && WorkerStep(sh, i, w).sh.drawn == sh.drawn
  {
    hide Home, Look, Token;
  }

  // The counter deals the tickets out in turn.
  lemma {:induction false} DealtInTurn(states: seq<State>, steps: seq<Step>, k: nat)
    requires Run(states, steps) && k < |states|
    ensures states[k].sh.rr == Draws(steps[..k]) % WORD
  {
    hide Next;
    if k > 0 {
      DealtInTurn(states, steps, k - 1);
      assert StepAt(states, steps, k - 1);
      assert steps[..k][..k - 1] == steps[..k - 1];
      DrawStep(states[k - 1], steps[k - 1], states[k]);
    }
  }
}
