/** What holds in every run of the service: linearizability, real-time order,
  * routing and the matching of replies.
  */
module ServiceRuns {
  import opened Common
  import opened Keys
  import opened Bits
  import opened Matrix
  import opened Service
  import opened ServiceSteps

  // ---------------------------------------------------------------------------
  // Runs
  // ---------------------------------------------------------------------------

  predicate StepAt(states: seq<State>, steps: seq<Step>, k: nat) {
    k < |steps| && k + 1 < |states| && Next(states[k], steps[k], states[k + 1])
  }

  // Any interleaving of any number of steps.
  predicate Execution(states: seq<State>, steps: seq<Step>) {
    |states| == |steps| + 1 && forall k {:trigger StepAt(states, steps, k)} :: 0 <= k < |steps| ==>
        StepAt(states, steps, k)
  }

  predicate Run(states: seq<State>, steps: seq<Step>) {
    Execution(states, steps) && Init(states[0])
  }

  lemma {:induction false} AlwaysInv(states: seq<State>, steps: seq<Step>, k: nat)
    requires Run(states, steps) && k < |states|
    ensures Inv(states[k])
  {
    hide Inv, Init, Next;
    if k == 0 {
      InitInv(states[0]);
    } else {
      AlwaysInv(states, steps, k - 1);
      assert StepAt(states, steps, k - 1);
      StepKeepsInv(states[k - 1], steps[k - 1], states[k]);
    }
  }

  lemma StepForward(s: State, step: Step, s': State)
    requires Inv(s) && Next(s, step, s')
    ensures Forward(s.sh, s'.sh)
    ensures step.ClientReturn? ==> Advanced(s.sh, s'.sh, step.r)
    ensures step.Work? || step.ClientReturn? ==> |s'.sh.reqs| == |s.sh.reqs|
  {
    hide SharedOk, WorkerOk, WorkerStep, Rely, Home, IsPow2;
    match step {
      case Work(i) =>
        assert WorkerOk(s.sh, i, s.workers[i]);
        WorkerKeeps(s.sh, i, s.workers[i]);
        SameRequests(s.sh, i, s.workers[i]);
      case ClientReturn(r) =>
        RequestFacts(s.sh, r);
      case _ =>
    }
  }

  lemma RequestFacts(sh: Shared, r: Id)
    requires SharedOk(sh) && r < |sh.reqs|
    ensures RequestOk(sh, r)
  {
  }

  lemma SameRequests(sh: Shared, i: nat, w: Worker)
    ensures |WorkerStep(sh, i, w).sh.reqs| == |sh.reqs|
  {
    hide Home, Look, Token;
  }

  // ---------------------------------------------------------------------------
  // Linearizability
  // ---------------------------------------------------------------------------

  // Every returned request took effect exactly once, between its submission and
  // its return, and answered what one map gives in the order of the effects.
  lemma Linearizable(states: seq<State>, steps: seq<Step>, k: nat, r: Id)
    requires Run(states, steps) && k < |states| && r < |states[k].sh.reqs| && states[k].sh.reqs[r].result.Some?
    ensures
      var sh := states[k].sh;
      var q := sh.reqs[r];
      && q.begin <= q.at < q.end <= |sh.log|
      && sh.log[q.at] == Event(r, q.op, q.result.value)
      && q.result.value == Respond(Replay(sh.log[..q.at]), q.op)
      && (forall j :: 0 <= j < |sh.log| && sh.log[j].req == r ==> j == q.at)
  {
    hide TransitOk, AllFound, WorkerOk, Replay, Home, IsPow2;
    AlwaysInv(states, steps, k);
    var sh := states[k].sh;
    assert RequestOk(sh, r);
    assert LegalAt(sh.log, sh.reqs[r].at);
    forall j | 0 <= j < |sh.log| && sh.log[j].req == r
      ensures j == sh.reqs[r].at
    {
      assert EventOk(sh, j);
    }
  }

  // The whole log is a legal history of one map, and the shards together are
  // that map: each key at its owner and nowhere else.
  lemma OneMap(states: seq<State>, steps: seq<Step>, k: nat, i: nat, key: Key)
    requires Run(states, steps) && k < |states| && i < |states[k].workers|
    ensures Legal(states[k].sh.log)
    ensures Look(states[k].workers[i].shard, key) ==
            if i == Home(states[k].sh.n, key) then Look(Replay(states[k].sh.log), key) else None
  {
    hide TransitOk, AllFound, Legal, Replay, Home, IsPow2, PcOk, CarriesOk, BatchOk, WaitersOk, AllHeld;
    AlwaysInv(states, steps, k);
    assert WorkerOk(states[k].sh, i, states[k].workers[i]);
  }

  // The log only grows, a request keeps its place in it, and what is submitted
  // later begins later.
  lemma {:induction false} HistoryGrows(states: seq<State>, steps: seq<Step>, a: nat, b: nat)
    requires Run(states, steps) && a <= b < |states|
    ensures
      var sh, sh' := states[a].sh, states[b].sh;
      && |sh.log| <= |sh'.log| && sh'.log[..|sh.log|] == sh.log && |sh.reqs| <= |sh'.reqs|
      && (forall r {:trigger sh'.reqs[r]} :: 0 <= r < |sh.reqs| ==> RequestForward(sh.reqs[r], sh'.reqs[r]))
      && (forall r {:trigger sh'.reqs[r]} :: |sh.reqs| <= r < |sh'.reqs| ==> |sh.log| <= sh'.reqs[r].begin)
  {
    hide Inv, Init, Next;
    if a < b {
      HistoryGrows(states, steps, a, b - 1);
      AlwaysInv(states, steps, b - 1);
      assert StepAt(states, steps, b - 1);
      StepForward(states[b - 1], steps[b - 1], states[b]);
      var mid, sh' := states[b - 1].sh, states[b].sh;
      forall r | 0 <= r < |mid.reqs|
        ensures RequestForward(mid.reqs[r], sh'.reqs[r])
      {
      }
    }
  }

  // Real time: a request that returned before another was submitted took effect first.
  lemma RealTimeOrder(states: seq<State>, steps: seq<Step>, a: nat, b: nat, r: Id, r': Id)
    requires Run(states, steps) && a <= b < |states|
    requires r < |states[a].sh.reqs| <= r' < |states[b].sh.reqs|
    requires states[a].sh.reqs[r].result.Some? && Effected(states[b].sh.reqs[r'].stage)
    ensures states[b].sh.reqs[r].at < states[b].sh.reqs[r'].at
    ensures states[b].sh.reqs[r].result == states[a].sh.reqs[r].result
  {
    hide TransitOk, AllFound, WorkerOk, Replay, Home, IsPow2, Legal, Next, Init;
    AlwaysInv(states, steps, a);
    AlwaysInv(states, steps, b);
    HistoryGrows(states, steps, a, b);
    assert RequestOk(states[a].sh, r);
    assert RequestOk(states[b].sh, r');
    assert RequestForward(states[a].sh.reqs[r], states[b].sh.reqs[r]);
  }

  // No Put is ever forwarded: clients send them straight to the owner.
  lemma PutsStayHome(states: seq<State>, steps: seq<Step>, k: nat, i: nat, j: nat)
    requires Run(states, steps) && k < |states| && i < |states[k].workers|
    ensures forall c :: c in Queue(states[k].sh.cmd, i, j) ==> c.GetCommand?
    ensures states[k].workers[i].sending.Some? ==> states[k].workers[i].sending.value.GetCommand?
  {
    hide HistoryOk, AllFound, Replay, Home, IsPow2, ShardOk, WaitersOk, AllHeld, BatchOk, Next, Init, RepliesOk,
        IngressOk;
    AlwaysInv(states, steps, k);
    var sh := states[k].sh;
    assert WorkerOk(sh, i, states[k].workers[i]);
    assert CommandsOk(sh, i, j);
    forall c | c in Queue(sh.cmd, i, j)
      ensures c.GetCommand?
    {
      var l :| 0 <= l < |Queue(sh.cmd, i, j)| && Queue(sh.cmd, i, j)[l] == c;
      assert CommandOk(sh, i, j, c);
    }
  }

  // Every reply in flight reaches the client that asked: its token is in the
  // waiting map of the worker it travels to, under that request, and carries the
  // value the request was logged with.
  lemma ReplyMatches(states: seq<State>, steps: seq<Step>, k: nat, i: nat, src: nat)
    requires Run(states, steps) && k < |states| && i < |states[k].workers|
    requires Queue(states[k].sh.reply, src, i) != []
    ensures
      var p, sh := Queue(states[k].sh.reply, src, i)[0], states[k].sh;
      && p.token in states[k].workers[i].waiters && states[k].workers[i].waiters[p.token] == p.req
      && p.req < |sh.reqs| && sh.reqs[p.req].at < |sh.log|
      && sh.log[sh.reqs[p.req].at] == Event(p.req, sh.reqs[p.req].op, p.val)
  {
    hide SharedOk, WorkerOk, Replay, Home, IsPow2, Next, Init;
    AlwaysInv(states, steps, k);
    assert WorkerOk(states[k].sh, i, states[k].workers[i]);
    HeadReply(states[k].sh, i, states[k].workers[i], src);
  }
}
