/** Progress of the service: full queues never block it, and fair schedules answer
  * every request.
  */
module ServiceProgress {
  import opened Keys
  import opened Bits
  import opened Matrix
  import opened Service
  import opened ServiceSteps
  import opened ServiceRuns

  // ---------------------------------------------------------------------------
  // Progress: full queues never block the mesh
  // ---------------------------------------------------------------------------

  // Something worker `i` can do that advances a request.
  datatype Goal = ToCollect(src: nat) | ToAnswer | ToPop(src: nat) | ToSend | ToServe | ToDrain | ToSettle

  predicate Ready(sh: Shared, i: nat, w: Worker, g: Goal) {
    match g
    case ToCollect(src) => src < sh.n && Queue(sh.reply, src, i) != []
    case ToAnswer => w.answering.Some? && |Queue(sh.reply, i, w.answering.value.to)| < sh.cap
    case ToPop(src) => src < sh.n && w.answering.None? && Queue(sh.cmd, src, i) != []
    case ToSend => w.answering.None? && w.sending.Some? && |Queue(sh.cmd, i, Home(sh.n, w.sending.value.key))| < sh.cap
    case ToServe => w.pc.Serving? && w.batch != []
    case ToDrain => w.answering.None? && w.sending.None? && w.batch == [] && Stack(sh, i) != []
    case ToSettle => w.pc.Storing? || w.pc.Publishing?
  }

  // How many steps worker `i` is away from it, unless it advances a request before.
  function Distance(n: nat, w: Worker, g: Goal): int {
    match w.pc
    case Storing(_, _, _) => 1
    case Publishing(_, _) => 0
    case Collecting(s) =>
      (match g
       case ToCollect(j) => if s <= j then j - s else n - s + n + 4 + j
       case ToPop(j) => n - s + 2 + j
       case _ => n - s + 1)
    case Popping(s) =>
      (match g
       case ToCollect(j) => n - s + 1 + j
       case ToPop(j) => if s <= j then j - s else n - s + n + 3 + j
       case _ => n - s + n + 2)
    case Answering => if g.ToCollect? then g.src + 1 else 0
    case _ =>
      (match g
       case ToCollect(j) => n + 2 + j
       case ToPop(j) => 1 + j
       case ToDrain => if w.pc.Draining? then 0 else 2 * n + 3
       case _ => 0)
  }

  lemma DistanceBound(sh: Shared, i: nat, w: Worker, g: Goal)
    requires WorkerOk(sh, i, w) && Ready(sh, i, w, g)
    ensures 0 <= Distance(sh.n, w, g) <= 2 * sh.n + 3
  {
    hide CarriesOk, BatchOk, ShardOk, WaitersOk, AllHeld;
  }

  lemma Nearer(sh: Shared, i: nat, w: Worker, g: Goal)
    requires SharedOk(sh) && WorkerOk(sh, i, w) && w.nextToken < TOKENS && Ready(sh, i, w, g)
    ensures
      var o := WorkerStep(sh, i, w);
      Effect(sh, o.sh) || (Quiet(sh, o.sh) && Ready(o.sh, i, o.w, g) && Distance(sh.n, o.w, g) < Distance(sh.n, w, g))
  {
    hide SharedOk, WorkerOk, OthersRely, Forward, Effect, PopStep, AnswerStep, CollectStep, StoreStep, PublishStep,
         DrainStep, ServeStep, SendStep;
    WorkerKeeps(sh, i, w);
    match w.pc {
      case Popping(src) => NearerPop(sh, i, w, g);
      case Answering => NearerAnswer(sh, i, w, g);
      case Collecting(src) => NearerCollect(sh, i, w, g);
      case Storing(r, val, back) => NearerStore(sh, i, w, g);
      case Publishing(r, back) => NearerPublish(sh, i, w);
      case Draining => NearerDrain(sh, i, w, g);
      case Serving => NearerServe(sh, i, w, g);
      case Sending => NearerSend(sh, i, w, g);
    }
  }

  lemma NearerPop(sh: Shared, i: nat, w: Worker, g: Goal)
    requires WorkerOk(sh, i, w) && Ready(sh, i, w, g) && w.pc.Popping?
    ensures
      var o := PopStep(sh, i, w, w.pc.src);
      Quiet(sh, o.sh) ==> Ready(o.sh, i, o.w, g) && Distance(sh.n, o.w, g) < Distance(sh.n, w, g)
  {
    hide CarriesOk, BatchOk, ShardOk, WaitersOk, AllHeld, Home;
    var q := Queue(sh.cmd, w.pc.src, i);
    if w.pc.src < sh.n && q != [] {
      assert |q[1..]| < |q|;
    }
  }

  lemma NearerAnswer(sh: Shared, i: nat, w: Worker, g: Goal)
    requires WorkerOk(sh, i, w) && Ready(sh, i, w, g) && w.pc.Answering?
    ensures w.answering.Some?
    ensures
      var o := AnswerStep(sh, i, w, w.answering.value);
      Quiet(sh, o.sh) ==> Ready(o.sh, i, o.w, g) && Distance(sh.n, o.w, g) < Distance(sh.n, w, g)
  {
    hide CarriesOk, BatchOk, ShardOk, WaitersOk, AllHeld, Home;
    var a := w.answering.value;
    var q := Queue(sh.reply, i, a.to);
    assert |q + [a.reply]| > |q|;
  }

  lemma NearerCollect(sh: Shared, i: nat, w: Worker, g: Goal)
    requires WorkerOk(sh, i, w) && Ready(sh, i, w, g) && w.pc.Collecting?
    ensures
      var o := CollectStep(sh, i, w, w.pc.src);
      Quiet(sh, o.sh) ==> Ready(o.sh, i, o.w, g) && Distance(sh.n, o.w, g) < Distance(sh.n, w, g)
  {
    hide CarriesOk, BatchOk, ShardOk, WaitersOk, AllHeld, Home;
    var q := Queue(sh.reply, w.pc.src, i);
    if w.pc.src < sh.n && q != [] {
      assert |q[1..]| < |q|;
    }
  }

  lemma NearerStore(sh: Shared, i: nat, w: Worker, g: Goal)
    requires WorkerOk(sh, i, w) && Ready(sh, i, w, g) && w.pc.Storing?
    ensures
      var o := StoreStep(sh, w, w.pc.req, w.pc.val, w.pc.back);
      Ready(o.sh, i, o.w, g) && Distance(sh.n, o.w, g) < Distance(sh.n, w, g)
  {
    hide CarriesOk, BatchOk, ShardOk, WaitersOk, AllHeld, Route;
  }

  lemma NearerPublish(sh: Shared, i: nat, w: Worker)
    requires WorkerOk(sh, i, w) && w.pc.Publishing?
    ensures !Quiet(sh, PublishStep(sh, w, w.pc.req, w.pc.back).sh)
  {
    hide BatchOk, ShardOk, WaitersOk, AllHeld, Route;
    assert PublishStep(sh, w, w.pc.req, w.pc.back).sh.reqs[w.pc.req].stage != sh.reqs[w.pc.req].stage;
  }

  lemma NearerDrain(sh: Shared, i: nat, w: Worker, g: Goal)
    requires WorkerOk(sh, i, w) && Ready(sh, i, w, g) && w.pc.Draining?
    ensures
      var o := DrainStep(sh, i, w);
      Quiet(sh, o.sh) ==> Ready(o.sh, i, o.w, g) && Distance(sh.n, o.w, g) < Distance(sh.n, w, g)
  {
    hide CarriesOk, BatchOk, ShardOk, WaitersOk, AllHeld, Home, TakeBatch;
    var o := DrainStep(sh, i, w);
    if Stack(sh, i) != [] {
      assert o.sh.ingress[i] == [];
    }
  }

  lemma NearerServe(sh: Shared, i: nat, w: Worker, g: Goal)
    requires WorkerOk(sh, i, w) && Ready(sh, i, w, g) && w.pc.Serving? && SharedOk(sh)
    ensures
      var o := ServeStep(sh, i, w);
      Quiet(sh, o.sh) ==> Ready(o.sh, i, o.w, g) && Distance(sh.n, o.w, g) < Distance(sh.n, w, g)
  {
    hide TransitOk, AllFound, CarriesOk, ShardOk, WaitersOk, AllHeld, Home, Token, Legal;
    var o := ServeStep(sh, i, w);
    if w.batch != [] {
      var r := w.batch[0];
      HeadBatched(sh, i, w.batch);
      assert RequestOk(sh, r);
      assert o.sh.reqs[r].stage != sh.reqs[r].stage;
    }
  }

  lemma NearerSend(sh: Shared, i: nat, w: Worker, g: Goal)
    requires WorkerOk(sh, i, w) && Ready(sh, i, w, g) && w.pc.Sending?
    ensures w.sending.Some?
    ensures
      var o := SendStep(sh, i, w, w.sending.value);
      Quiet(sh, o.sh) ==> Ready(o.sh, i, o.w, g) && Distance(sh.n, o.w, g) < Distance(sh.n, w, g)
  {
    hide CarriesOk, BatchOk, ShardOk, WaitersOk, AllHeld, Home;
    var c := w.sending.value;
    var q := Queue(sh.cmd, i, Home(sh.n, c.key));
    assert |q + [c]| > |q|;
  }

  // A request that has not been answered yet.
  predicate Unfinished(sh: Shared, r: Id) {
    r < |sh.reqs| && !sh.reqs[r].stage.Done? && !sh.reqs[r].stage.Returned?
  }

  ghost predicate Pending(sh: Shared) { exists r :: Unfinished(sh, r) }

  ghost predicate SomeReady(s: State) {
    exists i, g :: 0 <= i < |s.workers| && Ready(s.sh, i, s.workers[i], g)
  }

  // Whatever is full, some worker can advance a request: replies can always be
  // collected; when there are none, held answers can be pushed; when nobody
  // holds one, commands can be popped; when there are none, held commands can be
  // pushed; and then the batches and stacks.
  lemma SomebodyCan(s: State, r: Id)
    requires Inv(s) && Unfinished(s.sh, r)
    ensures SomeReady(s)
  {
    hide SharedOk, WorkerOk, Home;
    if j, i :| 0 <= j < |s.workers| && 0 <= i < |s.workers| && Queue(s.sh.reply, j, i) != [] {
      assert Ready(s.sh, i, s.workers[i], ToCollect(j));
    } else if i :| 0 <= i < |s.workers| && s.workers[i].answering.Some? {
      AnswerFits(s, i);
    } else if j, i :| 0 <= j < |s.workers| && 0 <= i < |s.workers| && Queue(s.sh.cmd, j, i) != [] {
      assert Ready(s.sh, i, s.workers[i], ToPop(j));
    } else if i :| 0 <= i < |s.workers| && s.workers[i].sending.Some? {
      CommandFits(s, i);
    } else if i :| 0 <= i < |s.workers| && s.workers[i].batch != [] {
      BatchServed(s, i);
    } else {
      MustBeQueued(s, r);
    }
  }

  lemma AnswerFits(s: State, i: nat)
    requires Inv(s) && i < |s.workers| && s.workers[i].answering.Some?
    requires forall a, b :: 0 <= a < |s.workers| && 0 <= b < |s.workers| ==> Queue(s.sh.reply, a, b) == []
    ensures SomeReady(s)
  {
    hide AllFound, TransitOk, BatchOk, ShardOk, WaitersOk, AllHeld, Home, IsPow2, Legal;
    var w := s.workers[i];
    assert WorkerOk(s.sh, i, w);
    assert RequestOk(s.sh, w.answering.value.reply.req);
    assert Ready(s.sh, i, w, ToAnswer);
  }

  lemma HomeInRange(sh: Shared, k: Key)
    requires IsPow2(sh.n)
    ensures Home(sh.n, k) < sh.n
  {
  }

  lemma CommandFits(s: State, i: nat)
    requires Inv(s) && i < |s.workers| && s.workers[i].sending.Some? && s.workers[i].answering.None?
    requires forall a, b :: 0 <= a < |s.workers| && 0 <= b < |s.workers| ==> Queue(s.sh.cmd, a, b) == []
    ensures SomeReady(s)
  {
    hide HistoryOk, AllFound, TransitOk, WorkerOk, Home, IsPow2;
    HomeInRange(s.sh, s.workers[i].sending.value.key);
    assert Ready(s.sh, i, s.workers[i], ToSend);
  }

  lemma BatchServed(s: State, i: nat)
    requires Inv(s) && i < |s.workers| && s.workers[i].sending.None? && s.workers[i].batch != []
    ensures SomeReady(s)
  {
    hide SharedOk, CarriesOk, BatchOk, ShardOk, WaitersOk, AllHeld, Home;
    assert WorkerOk(s.sh, i, s.workers[i]);
    if s.workers[i].pc.Serving? {
      assert Ready(s.sh, i, s.workers[i], ToServe);
    } else {
      assert Ready(s.sh, i, s.workers[i], ToSettle);
    }
  }

  lemma MustBeQueued(s: State, r: Id)
    requires Inv(s) && Unfinished(s.sh, r)
    requires forall a, b :: 0 <= a < |s.workers| && 0 <= b < |s.workers| ==> Queue(s.sh.reply, a, b) == []
    requires forall a, b :: 0 <= a < |s.workers| && 0 <= b < |s.workers| ==> Queue(s.sh.cmd, a, b) == []
    requires forall a :: 0 <= a < |s.workers| ==>
      s.workers[a].answering.None? && s.workers[a].sending.None? && s.workers[a].batch == []
    ensures SomeReady(s)
  {
    hide TransitOk, ShardOk, WaitersOk, BatchOk, CarriesOk, PcOk, Home, IsPow2, Legal, Ready;
    var st := s.sh.reqs[r].stage;
    assert RequestOk(s.sh, r) && FoundOk(s.sh, r);
    if st.Asked? || st.Answered? || st.Replied? {
      OwnerInRange(s.sh, r);
      assert HeldOk(s.sh, st.o, s.workers[st.o], r) by { assert WorkerOk(s.sh, st.o, s.workers[st.o]); }
    }
    assert WorkerOk(s.sh, st.w, s.workers[st.w]);
    assert HeldOk(s.sh, st.w, s.workers[st.w], r);
    QueuedOrSettling(s, r);
  }

  lemma OwnerInRange(sh: Shared, r: Id)
    requires SharedOk(sh) && r < |sh.reqs|
    requires sh.reqs[r].stage.Asked? || sh.reqs[r].stage.Answered? || sh.reqs[r].stage.Replied?
    ensures sh.reqs[r].stage.o < sh.n
  {
    hide TransitOk, AllFound, Legal;
    assert RequestOk(sh, r);
  }

  lemma QueuedOrSettling(s: State, r: Id)
    requires r < |s.sh.reqs|
    requires var st := s.sh.reqs[r].stage;
      && (st.Queued? || st.Settling?) && st.w < |s.workers|
      && (st.Queued? ==> r in Stack(s.sh, st.w))
      && (st.Settling? ==> Fulfilling(s.workers[st.w].pc, r))
    requires forall a :: 0 <= a < |s.workers| ==>
      s.workers[a].answering.None? && s.workers[a].sending.None? && s.workers[a].batch == []
    ensures SomeReady(s)
  {
    var st := s.sh.reqs[r].stage;
    if st.Queued? {
      assert Ready(s.sh, st.w, s.workers[st.w], ToDrain);
    } else {
      assert Ready(s.sh, st.w, s.workers[st.w], ToSettle);
    }
  }

  predicate Submits(step: Step) { !step.Work? && !step.ClientReturn? }

  // A step of anybody advances a request, or leaves worker `i` able to, and
  // nearer to it if the step was its own.
  lemma StillReady(s: State, step: Step, s': State, i: nat, g: Goal)
    requires Inv(s) && Next(s, step, s') && !Submits(step) && i < |s.workers| && Ready(s.sh, i, s.workers[i], g)
    ensures |s'.workers| == |s.workers| && s'.sh.n == s.sh.n
    ensures Effect(s.sh, s'.sh) ||
            (Ready(s'.sh, i, s'.workers[i], g) &&
             Distance(s.sh.n, s'.workers[i], g) + (if step == Work(i) then 1 else 0) <=
               Distance(s.sh.n, s.workers[i], g))
  {
    hide SharedOk, WorkerOk, OthersRely, Forward, WorkerStep, Distance, Ready;
    match step {
      case Work(k) =>
        assert WorkerOk(s.sh, k, s.workers[k]);
        WorkerKeeps(s.sh, k, s.workers[k]);
        if k == i {
          Nearer(s.sh, i, s.workers[i], g);
        } else {
          SameReady(s.sh, s'.sh, i, s.workers[i], g);
        }
      case ClientReturn(r) =>
        StepForward(s, step, s');
        assert Advanced(s.sh, s'.sh, r);
      case _ =>
    }
  }

  lemma SameReady(sh: Shared, sh': Shared, i: nat, w: Worker, g: Goal)
    requires Ready(sh, i, w, g)
    ensures Quiet(sh, sh') ==> Ready(sh', i, w, g)
  {
    hide Route;
  }

  // All the stages still ahead of all requests.
  function Remaining(reqs: seq<Request>): nat {
    if reqs == [] then 0 else Remaining(reqs[..|reqs| - 1]) + Weight(reqs[|reqs| - 1].stage)
  }

  lemma {:induction false} WorkDrops(a: seq<Request>, b: seq<Request>, r: Id)
    requires |a| == |b| && forall k :: 0 <= k < |a| ==> Weight(b[k].stage) <= Weight(a[k].stage)
    ensures Remaining(b) <= Remaining(a)
    ensures r < |a| && Weight(b[r].stage) < Weight(a[r].stage) ==> Remaining(b) < Remaining(a)
  {
    if a != [] {
      WorkDrops(a[..|a| - 1], b[..|b| - 1], r);
    }
  }

  lemma StepWork(s: State, step: Step, s': State)
    requires Inv(s) && Next(s, step, s') && !Submits(step)
    ensures Remaining(s'.sh.reqs) <= Remaining(s.sh.reqs)
    ensures Effect(s.sh, s'.sh) ==> Remaining(s'.sh.reqs) < Remaining(s.sh.reqs)
  {
    hide Inv, Next;
    StepForward(s, step, s');
    var a, b := s.sh.reqs, s'.sh.reqs;
    assert forall k :: 0 <= k < |a| ==> RequestForward(a[k], b[k]);
    if r :| Advanced(s.sh, s'.sh, r) {
      WorkDrops(a, b, r);
    } else {
      WorkDrops(a, b, 0);
    }
  }

  ghost predicate Closed(states: seq<State>, steps: seq<Step>) {
    Execution(states, steps) && Inv(states[0]) && forall k :: 0 <= k < |steps| ==> !Submits(steps[k])
  }

  lemma ClosedTail(states: seq<State>, steps: seq<Step>)
    requires Closed(states, steps) && steps != []
    ensures Next(states[0], steps[0], states[1]) && Closed(states[1..], steps[1..])
  {
    hide Inv, Next;
    assert StepAt(states, steps, 0);
    StepKeepsInv(states[0], steps[0], states[1]);
    forall k | 0 <= k < |steps[1..]|
      ensures StepAt(states[1..], steps[1..], k)
    {
      assert StepAt(states, steps, k + 1);
    }
  }

  lemma {:induction false} WorkNeverRises(states: seq<State>, steps: seq<Step>)
    requires Closed(states, steps)
    ensures Remaining(states[|steps|].sh.reqs) <= Remaining(states[0].sh.reqs)
    decreases |steps|
  {
    hide Inv, Next;
    if steps != [] {
      ClosedTail(states, steps);
      StepWork(states[0], steps[0], states[1]);
      WorkNeverRises(states[1..], steps[1..]);
    }
  }

  function Turns(steps: seq<Step>, i: nat): nat {
    if steps == [] then 0 else (if steps[0] == Work(i) then 1 else 0) + Turns(steps[1..], i)
  }

  lemma {:induction false} ReadyAdvances(states: seq<State>, steps: seq<Step>, i: nat, g: Goal)
    requires Closed(states, steps) && i < |states[0].workers| && Ready(states[0].sh, i, states[0].workers[i], g)
    requires Turns(steps, i) > Distance(states[0].sh.n, states[0].workers[i], g) >= 0
    ensures Remaining(states[|steps|].sh.reqs) < Remaining(states[0].sh.reqs)
    decreases |steps|
  {
    hide Inv, Next, Ready, Distance, Quiet, Effect, Remaining;
    ClosedTail(states, steps);
    StillReady(states[0], steps[0], states[1], i, g);
    StepWork(states[0], steps[0], states[1]);
    if Effect(states[0].sh, states[1].sh) {
      WorkNeverRises(states[1..], steps[1..]);
    } else {
      NextDistance(states[1], i, g);
      ReadyAdvances(states[1..], steps[1..], i, g);
    }
  }

  lemma NextDistance(s: State, i: nat, g: Goal)
    requires Inv(s) && i < |s.workers| && Ready(s.sh, i, s.workers[i], g)
    ensures 0 <= Distance(s.sh.n, s.workers[i], g) <= 2 * s.sh.n + 3
  {
    hide SharedOk, WorkerOk, Ready, Distance;
    assert WorkerOk(s.sh, i, s.workers[i]);
    DistanceBound(s.sh, i, s.workers[i], g);
  }

  // In any reachable state with an unanswered request there is a worker whose
  // next 2n + 4 turns advance a request, however they are interleaved with the
  // turns of others and with clients returning.
  lemma NoDeadlock(s: State, r: Id) returns (i: nat)
    requires Inv(s) && Unfinished(s.sh, r)
    ensures i < |s.workers|
    ensures forall states: seq<State>, steps: seq<Step> {:trigger Closed(states, steps)} ::
      Closed(states, steps) && states[0] == s && Turns(steps, i) > 2 * s.sh.n + 3 ==>
        Remaining(states[|steps|].sh.reqs) < Remaining(s.sh.reqs)
  {
    hide Inv, Next, Ready, Distance, Remaining, Turns;
    SomebodyCan(s, r);
    var g;
    i, g :| 0 <= i < |s.workers| && Ready(s.sh, i, s.workers[i], g);
    NextDistance(s, i, g);
    forall states: seq<State>, steps: seq<Step> | Closed(states, steps) && states[0] == s &&
        Turns(steps, i) > 2 * s.sh.n + 3
      ensures Remaining(states[|steps|].sh.reqs) < Remaining(s.sh.reqs)
    {
      ReadyAdvances(states, steps, i, g);
    }
  }

  // `m` rounds in a row, in each of which every worker gets enough turns.
  ghost predicate FairRounds(states: seq<State>, steps: seq<Step>, m: nat) {
    |states| == |steps| + 1 &&
    (m > 0 ==> exists c: nat {:trigger Round(states, steps, c)} ::
       Round(states, steps, c) && FairRounds(states[c..], steps[c..], m - 1))
  }

  ghost predicate Round(states: seq<State>, steps: seq<Step>, c: nat) {
    && c <= |steps| < |states|
    && forall i :: 0 <= i < |states[0].workers| ==> Turns(steps[..c], i) > 2 * states[0].sh.n + 3
  }

  lemma {:induction false} ClosedSplit(states: seq<State>, steps: seq<Step>, c: nat)
    requires Closed(states, steps) && c <= |steps|
    ensures Closed(states[..c + 1], steps[..c]) && Closed(states[c..], steps[c..])
  {
    hide Inv, Next;
    var states1, steps1 := states[..c + 1], steps[..c];
    forall k | 0 <= k < |steps1|
      ensures StepAt(states1, steps1, k)
    {
      assert StepAt(states, steps, k);
    }
    forall k | 0 <= k < |steps[c..]|
      ensures StepAt(states[c..], steps[c..], k)
    {
      assert StepAt(states, steps, c + k);
    }
    if c > 0 {
      ClosedSplit(states, steps, c - 1);
      assert StepAt(states, steps, c - 1);
      StepKeepsInv(states[c - 1], steps[c - 1], states[c]);
    }
  }

  // As many fair rounds as there is work left answer every request, with queues
  // of any capacity and whatever the other interleaving choices.
  lemma {:induction false} EveryRequestAnswered(states: seq<State>, steps: seq<Step>, m: nat)
    requires Closed(states, steps) && FairRounds(states, steps, m) && Remaining(states[0].sh.reqs) <= m
    ensures !Pending(states[|steps|].sh)
    decreases m
  {
    hide Inv, Next, Turns, Remaining;
    if r :| Unfinished(states[0].sh, r) {
      HasWork(states[0].sh.reqs, r);
      var c: nat :| Round(states, steps, c) && FairRounds(states[c..], steps[c..], m - 1);
      ClosedSplit(states, steps, c);
      var i := NoDeadlock(states[0], r);
      assert Closed(states[..c + 1], steps[..c]) && Turns(steps[..c], i) > 2 * states[0].sh.n + 3;
      EveryRequestAnswered(states[c..], steps[c..], m - 1);
    } else {
      StaysAnswered(states, steps);
    }
  }

  lemma {:induction false} HasWork(reqs: seq<Request>, r: Id)
    requires r < |reqs| && Weight(reqs[r].stage) > 0
    ensures Remaining(reqs) > 0
  {
    if r < |reqs| - 1 {
      HasWork(reqs[..|reqs| - 1], r);
    }
  }

  lemma {:induction false} StaysAnswered(states: seq<State>, steps: seq<Step>)
    requires Closed(states, steps) && !Pending(states[0].sh)
    ensures !Pending(states[|steps|].sh)
    decreases |steps|
  {
    hide Inv, Next;
    if steps != [] {
      ClosedTail(states, steps);
      StepForward(states[0], steps[0], states[1]);
      var a, b := states[0].sh.reqs, states[1].sh.reqs;
      forall r: nat | r < |b|
        ensures !Unfinished(states[1].sh, r)
      {
        assert !Unfinished(states[0].sh, r);
        assert RequestForward(a[r], b[r]);
      }
      StaysAnswered(states[1..], steps[1..]);
    }
  }

  // For runs: once clients stop submitting, finitely many fair rounds answer
  // everything that is outstanding.
  lemma RunAnswersAll(states: seq<State>, steps: seq<Step>, k: nat, m: nat)
    requires Run(states, steps) && k < |states| && forall j :: k <= j < |steps| ==> !Submits(steps[j])
    requires FairRounds(states[k..], steps[k..], m) && Remaining(states[k].sh.reqs) <= m
    ensures !Pending(states[|steps|].sh)
  {
    hide Inv, Init, Next, Turns, Remaining, FairRounds;
    AlwaysInv(states, steps, k);
    var states1, steps1 := states[k..], steps[k..];
    forall j | 0 <= j < |steps1|
      ensures StepAt(states1, steps1, j)
    {
      assert StepAt(states, steps, k + j);
    }
    EveryRequestAnswered(states1, steps1, m);
  }
}
