/** The shared-nothing service: clients submit requests to an accepting worker,
  * which serves them from its own shard or forwards them to the owner over a
  * matrix of bounded queues and relays the reply.
  *
  * Workers and clients interleave arbitrarily.  Every queue operation, swap of
  * an ingress stack and store into a completion is one step.  The step of a
  * worker is a function of what it shares and of its own state, since its code
  * is deterministic; the clients decide what is submitted and when.
  *
  * History variables that no step reads: the log of effects, a request's stage
  * and its three log positions, and the request named in a message.
  */
module Service {
  import opened Common
  import opened Keys
  import opened Bits
  import opened Matrix

  type Value = seq<Byte>
  type Contents = map<Key, Value>
  type Id = nat                       // a request

  const TOKENS: nat := 0x1_0000_0000_0000   // 2^48

  datatype Op = Put(key: Key, val: Value) | Get(key: Key)

  // Where a request is.  `w` accepted it, `o` owns its key, `t` is its token.
  datatype Stage =
    | Queued(w: nat)
    | Batched(w: nat)
    | Forwarding(w: nat, t: nat)
    | Asked(w: nat, o: nat, t: nat)
    | Answered(w: nat, o: nat, t: nat, val: Option<Value>)
    | Replied(w: nat, o: nat, t: nat, val: Option<Value>)
    | Settling(w: nat, val: Option<Value>)
    | Done(val: Option<Value>)
    | Returned(val: Option<Value>)

  // `value` and `done` are the completion the client waits on; `result` is what
  // the client's call returned.
  datatype Request = Request(
    op: Op, value: Option<Value>, done: bool, result: Option<Option<Value>>,
    stage: Stage, begin: nat, at: nat, end: nat)

  datatype Event = Event(req: Id, op: Op, result: Option<Value>)

  datatype Command =
    | PutCommand(key: Key, val: Value, req: Id)
    | GetCommand(key: Key, from: nat, token: nat, req: Id)

  datatype Reply = Reply(token: nat, val: Option<Value>, req: Id)

  datatype Shared = Shared(
    n: nat, cap: nat,
    cmd: map<Edge, seq<Command>>, reply: map<Edge, seq<Reply>>, ingress: map<nat, seq<Id>>,
    rr: nat, drawn: multiset<nat>,   // the round-robin counter, and what clients drew from it and have not used yet
    reqs: seq<Request>, log: seq<Event>)

  // Program points of a worker.  `back` is where `collect_replies` was when it
  // fulfilled a completion; without it the request was served from the batch.
  datatype Pc =
    | Popping(src: nat)
    | Answering
    | Collecting(src: nat)
    | Storing(req: Id, val: Option<Value>, back: Option<nat>)
    | Publishing(req: Id, back: Option<nat>)
    | Draining
    | Serving
    | Sending

  // The reply being pushed, and the inbox `pump_matrix` took the command from.
  datatype Answer = Answer(src: nat, to: nat, reply: Reply)

  datatype Worker = Worker(
    shard: Contents, waiters: map<nat, Id>, nextToken: nat,
    batch: seq<Id>, sending: Option<Command>, answering: Option<Answer>, pc: Pc)

  datatype State = State(sh: Shared, workers: seq<Worker>)

  datatype Out = Out(sh: Shared, w: Worker)

  // ---------------------------------------------------------------------------
  // Pieces of the steps
  // ---------------------------------------------------------------------------

  function Stack(sh: Shared, i: nat): seq<Id> {
    if i in sh.ingress then sh.ingress[i] else []
  }

  function Look(m: Contents, k: Key): Option<Value> {
    if k in m then Some(m[k]) else None
  }

  // `(id << 48) | next_token`
  function Token(i: nat, k: nat): nat { Or(i * TOKENS, k) }

  function SetStage(sh: Shared, r: Id, st: Stage): Shared {
    if r < |sh.reqs| then sh.(reqs := sh.reqs[r := sh.reqs[r].(stage := st)]) else sh
  }

  // The request takes effect here.
  function Commit(sh: Shared, r: Id, val: Option<Value>, st: Stage): Shared {
    if r < |sh.reqs| then
      sh.(reqs := sh.reqs[r := sh.reqs[r].(stage := st, at := |sh.log|)],
          log := sh.log + [Event(r, sh.reqs[r].op, val)])
    else sh
  }

  function TakeBatch(reqs: seq<Request>, batch: seq<Id>, i: nat): seq<Request> {
    seq(|reqs|, r requires 0 <= r < |reqs| =>
      if r in batch then reqs[r].(stage := Batched(i)) else reqs[r])
  }

  // ---------------------------------------------------------------------------
  // The step of a worker
  // ---------------------------------------------------------------------------

  // `pump_matrix`: pop one command from inbox `src` and serve it.
  function PopStep(sh: Shared, i: nat, w: Worker, src: nat): Out {
    if src >= sh.n then Out(sh, w.(pc := Collecting(0)))
    else
      var q := Queue(sh.cmd, src, i);
      if q == [] then Out(sh, w.(pc := Popping(src + 1)))
      else
        var sh1 := sh.(cmd := sh.cmd[Edge(src, i) := q[1..]]);
        match q[0]
        case PutCommand(k, v, r) => Out(sh1, w.(shard := w.shard[k := v]))
        case GetCommand(k, from, t, r) =>
          var val := Look(w.shard, k);
          Out(Commit(sh1, r, val, Answered(from, i, t, val)),
              w.(answering := Some(Answer(src, from, Reply(t, val, r))), pc := Answering))
  }

  // The retry loop around the push of a reply.
  function AnswerStep(sh: Shared, i: nat, w: Worker, a: Answer): Out {
    var q := Queue(sh.reply, i, a.to);
    if |q| < sh.cap then
      var sh1 := sh.(reply := sh.reply[Edge(i, a.to) := q + [a.reply]]);
      Out(SetStage(sh1, a.reply.req, Replied(a.to, i, a.reply.token, a.reply.val)),
          w.(answering := None, pc := Popping(a.src)))
    else Out(sh, w.(pc := Collecting(0)))
  }

  // `collect_replies`: afterwards back to the push of a reply, or out of
  // `pump_matrix` to the push of a command or to the ingress.
  function CollectStep(sh: Shared, i: nat, w: Worker, src: nat): Out {
    if src >= sh.n then
      Out(sh, w.(pc := if w.answering.Some? then Answering else if w.sending.Some? then Sending else Draining))
    else
      var q := Queue(sh.reply, src, i);
      if q == [] then Out(sh, w.(pc := Collecting(src + 1)))
      else
        var sh1 := sh.(reply := sh.reply[Edge(src, i) := q[1..]]);
        var t := q[0].token;
        if t in w.waiters then
          Out(SetStage(sh1, w.waiters[t], Settling(i, q[0].val)),
              w.(waiters := w.waiters - {t}, pc := Storing(w.waiters[t], q[0].val, Some(src))))
        else Out(sh1, w)
  }

  // `fulfill`: first the value, then the flag.
  function StoreStep(sh: Shared, w: Worker, r: Id, val: Option<Value>, back: Option<nat>): Out {
    Out(if r < |sh.reqs| then sh.(reqs := sh.reqs[r := sh.reqs[r].(value := val)]) else sh,
        w.(pc := Publishing(r, back)))
  }

  function PublishStep(sh: Shared, w: Worker, r: Id, back: Option<nat>): Out {
    Out(if r < |sh.reqs| then
          sh.(reqs := sh.reqs[r := sh.reqs[r].(done := true, stage := Done(sh.reqs[r].value))])
        else sh,
        w.(pc := if back.Some? then Collecting(back.value) else Serving))
  }

  function DrainStep(sh: Shared, i: nat, w: Worker): Out {
    var b := Stack(sh, i);
    if b == [] then Out(sh, w.(pc := Popping(0)))
    else Out(sh.(ingress := sh.ingress[i := []], reqs := TakeBatch(sh.reqs, b, i)), w.(batch := b, pc := Serving))
  }

  // One iteration of the loop over the drained requests.
  function ServeStep(sh: Shared, i: nat, w: Worker): Out {
    if w.batch == [] || w.batch[0] >= |sh.reqs| then Out(sh, w.(pc := Popping(0)))
    else
      var r, w1 := w.batch[0], w.(batch := w.batch[1..]);
      match sh.reqs[r].op
      case Put(k, v) =>
        if Home(sh.n, k) == i then
          Out(Commit(sh, r, None, Settling(i, None)), w1.(shard := w.shard[k := v], pc := Storing(r, None, None)))
        else Out(sh, w1.(sending := Some(PutCommand(k, v, r)), pc := Sending))
      case Get(k) =>
        if Home(sh.n, k) == i then
          var val := Look(w.shard, k);
          Out(Commit(sh, r, val, Settling(i, val)), w1.(pc := Storing(r, val, None)))
        else
          var t := Token(i, w.nextToken);
          Out(SetStage(sh, r, Forwarding(i, t)),
              w1.(nextToken := w.nextToken + 1, waiters := w.waiters[t := r],
                  sending := Some(GetCommand(k, i, t, r)), pc := Sending))
  }

  // The retry loop around the push of a command; a full queue means pumping first.
  function SendStep(sh: Shared, i: nat, w: Worker, c: Command): Out {
    var o := Home(sh.n, c.key);
    var q := Queue(sh.cmd, i, o);
    if |q| < sh.cap then
      var sh1 := sh.(cmd := sh.cmd[Edge(i, o) := q + [c]]);
      match c
      case PutCommand(_, _, r) => Out(sh1, w.(sending := None, pc := Storing(r, None, None)))
      case GetCommand(_, _, t, r) => Out(SetStage(sh1, r, Asked(i, o, t)), w.(sending := None, pc := Serving))
    else Out(sh, w.(pc := Popping(0)))
  }

  function WorkerStep(sh: Shared, i: nat, w: Worker): Out {
    match w.pc
    case Popping(src) => PopStep(sh, i, w, src)
    case Answering => if w.answering.Some? then AnswerStep(sh, i, w, w.answering.value) else Out(sh, w)
    case Collecting(src) => CollectStep(sh, i, w, src)
    case Storing(r, val, back) => StoreStep(sh, w, r, val, back)
    case Publishing(r, back) => PublishStep(sh, w, r, back)
    case Draining => DrainStep(sh, i, w)
    case Serving => ServeStep(sh, i, w)
    case Sending => if w.sending.Some? then SendStep(sh, i, w, w.sending.value) else Out(sh, w)
  }

  // ---------------------------------------------------------------------------
  // The steps of a client
  // ---------------------------------------------------------------------------

  // The push of a new request onto the ingress stack of worker `accept`.
  function Submit(sh: Shared, op: Op, accept: nat): Shared {
    sh.(ingress := sh.ingress[accept := [|sh.reqs|] + Stack(sh, accept)],
        reqs := sh.reqs + [Request(op, None, false, None, Queued(accept), |sh.log|, 0, 0)])
  }

  // `wait` sees the flag and takes the value.
  function Take(sh: Shared, r: Id): Shared
    requires r < |sh.reqs|
  {
    var q := sh.reqs[r];
    sh.(reqs := sh.reqs[r := q.(value := None, result := Some(q.value), stage := Returned(q.value), end := |sh.log|)])
  }

  datatype Step =
    | Work(i: nat)
    | ClientPut(k: Key, v: Value)
    | ClientGet(k: Key)
    | ClientDraw
    | ClientGetRoundRobin(k: Key, c: nat)
    | ClientReturn(r: Id)

  predicate Next(s: State, step: Step, s': State) {
    match step
    case Work(i) =>
      && i < |s.workers| && s.workers[i].nextToken < TOKENS
      && var o := WorkerStep(s.sh, i, s.workers[i]); s' == State(o.sh, s.workers[i := o.w])
    case ClientPut(k, v) => s' == s.(sh := Submit(s.sh, Put(k, v), Home(s.sh.n, k)))
    case ClientGet(k) => s' == s.(sh := Submit(s.sh, Get(k), Home(s.sh.n, k)))
    case ClientDraw =>
      s' == s.(sh := s.sh.(rr := (s.sh.rr + 1) % WORD, drawn := s.sh.drawn + multiset{s.sh.rr}))
    case ClientGetRoundRobin(k, c) =>
      && c in s.sh.drawn && s.sh.n > 0
      && s' == s.(sh := Submit(s.sh, Get(k), c % s.sh.n).(drawn := s.sh.drawn - multiset{c}))
    case ClientReturn(r) =>
      r < |s.sh.reqs| && s.sh.reqs[r].done && s.sh.reqs[r].result.None? && s' == s.(sh := Take(s.sh, r))
  }

  predicate Init(s: State) {
    && IsPow2(s.sh.n) && s.sh.cap > 0 && |s.workers| == s.sh.n
    && s.sh == Shared(s.sh.n, s.sh.cap, map[], map[], map[], 0, multiset{}, [], [])
    && forall i :: 0 <= i < |s.workers| ==> s.workers[i] == Worker(map[], map[], 0, [], None, None, Popping(0))
  }

  // ---------------------------------------------------------------------------
  // The log of effects, read as a sequential history
  // ---------------------------------------------------------------------------

  function Apply(m: Contents, op: Op): Contents {
    if op.Put? then m[op.key := op.val] else m
  }

  function Respond(m: Contents, op: Op): Option<Value> {
    if op.Put? then None else Look(m, op.key)
  }

  // One map, after all the logged operations.
  function Replay(log: seq<Event>): Contents {
    if log == [] then map[] else Apply(Replay(log[..|log| - 1]), log[|log| - 1].op)
  }

  // Every logged operation answered as it would have on that one map.
  predicate LegalAt(log: seq<Event>, k: nat) {
    k < |log| ==> log[k].result == Respond(Replay(log[..k]), log[k].op)
  }

  ghost predicate Legal(log: seq<Event>) {
    forall k {:trigger LegalAt(log, k)} :: LegalAt(log, k)
  }

  lemma LogGrows(log: seq<Event>, e: Event)
    requires Legal(log) && e.result == Respond(Replay(log), e.op)
    ensures Legal(log + [e]) && Replay(log + [e]) == Apply(Replay(log), e.op)
  {
    var log' := log + [e];
    assert log'[..|log'| - 1] == log;
    forall k: nat
      ensures LegalAt(log', k)
    {
      assert LegalAt(log, k);
      assert k <= |log| ==> log'[..k] == log[..k];
      assert log[..|log|] == log;
    }
  }

  // ---------------------------------------------------------------------------
  // Invariants
  // ---------------------------------------------------------------------------

  predicate At(sh: Shared, r: Id, st: Stage) { r < |sh.reqs| && sh.reqs[r].stage == st }

  // The worker whose private state holds the request.
  function Holder(st: Stage): Option<nat> {
    match st
    case Batched(w) => Some(w)
    case Forwarding(w, _) => Some(w)
    case Answered(_, o, _, _) => Some(o)
    case Settling(w, _) => Some(w)
    case _ => None
  }

  // The token under which a forwarded request waits at worker `i`.
  function Ticket(st: Stage, i: nat): Option<nat> {
    if (st.Forwarding? || st.Asked? || st.Answered? || st.Replied?) && st.w == i then Some(st.t) else None
  }

  predicate Effected(st: Stage) {
    st.Answered? || st.Replied? || st.Settling? || st.Done? || st.Returned?
  }

  // A request and its effect: logged once it has taken effect, after it began,
  // with the value on its way to the client.
  predicate RequestOk(sh: Shared, r: Id)
    requires r < |sh.reqs|
  {
    var q := sh.reqs[r];
    && q.begin <= |sh.log|
    && (q.stage.Queued? || q.stage.Batched? ==> q.stage.w < sh.n && (q.op.Put? ==> q.stage.w == Home(sh.n, q.op.key)))
    && (q.stage.Forwarding? || q.stage.Settling? ==> q.stage.w < sh.n)
    && (q.stage.Forwarding? ==> q.op.Get?)
    && (q.stage.Asked? || q.stage.Answered? || q.stage.Replied? ==>
          q.op.Get? && q.stage.w < sh.n && q.stage.o == Home(sh.n, q.op.key))
    && (Effected(q.stage) ==> q.begin <= q.at < |sh.log| && sh.log[q.at] == Event(r, q.op, q.stage.val))
    && (q.done <==> q.stage.Done? || q.stage.Returned?)
    && (q.stage.Done? ==> q.value == q.stage.val)
    && (q.result == if q.stage.Returned? then Some(q.stage.val) else None)
    && (q.stage.Returned? ==> q.at < q.end <= |sh.log|)
  }

  predicate EventOk(sh: Shared, k: nat)
    requires k < |sh.log|
  {
    var r := sh.log[k].req;
    r < |sh.reqs| && Effected(sh.reqs[r].stage) && sh.reqs[r].at == k
  }

  ghost predicate HistoryOk(sh: Shared) {
    && (forall r {:trigger RequestOk(sh, r)} :: 0 <= r < |sh.reqs| ==> RequestOk(sh, r))
    && (forall k {:trigger EventOk(sh, k)} :: 0 <= k < |sh.log| ==> EventOk(sh, k))
    && Legal(sh.log)
  }

  predicate CommandOk(sh: Shared, i: nat, j: nat, c: Command) {
    c.GetCommand? && c.from == i && At(sh, c.req, Asked(i, j, c.token)) && sh.reqs[c.req].op == Get(c.key)
  }

  predicate ReplyOk(sh: Shared, j: nat, i: nat, p: Reply) {
    At(sh, p.req, Replied(i, j, p.token, p.val))
  }

  // What is in the queues and stacks, each request once.
  ghost predicate CommandsOk(sh: Shared, i: nat, j: nat) {
    var q := Queue(sh.cmd, i, j);
    && |q| <= sh.cap
    && (forall k :: 0 <= k < |q| ==> CommandOk(sh, i, j, q[k]))
    && (forall k, l :: 0 <= k < l < |q| ==> q[k].req != q[l].req)
  }

  ghost predicate RepliesOk(sh: Shared, j: nat, i: nat) {
    var q := Queue(sh.reply, j, i);
    && |q| <= sh.cap
    && (forall k :: 0 <= k < |q| ==> ReplyOk(sh, j, i, q[k]))
    && (forall k, l :: 0 <= k < l < |q| ==> q[k].req != q[l].req)
  }

  ghost predicate IngressOk(sh: Shared, i: nat) {
    var b := Stack(sh, i);
    && (forall k :: 0 <= k < |b| ==> At(sh, b[k], Queued(i)))
    && (forall k, l :: 0 <= k < l < |b| ==> b[k] != b[l])
  }

  ghost predicate TransitOk(sh: Shared) {
    && (forall i, j {:trigger CommandsOk(sh, i, j)} :: CommandsOk(sh, i, j))
    && (forall i, j {:trigger RepliesOk(sh, i, j)} :: RepliesOk(sh, i, j))
    && (forall i {:trigger IngressOk(sh, i)} :: IngressOk(sh, i))
  }

  // Conversely a request on its way is where its stage says.
  predicate InCommands(q: seq<Command>, r: Id) { exists k :: 0 <= k < |q| && q[k].req == r }
  predicate InReplies(q: seq<Reply>, r: Id) { exists k :: 0 <= k < |q| && q[k].req == r }

  predicate FoundOk(sh: Shared, r: Id)
    requires r < |sh.reqs|
  {
    var st := sh.reqs[r].stage;
    && (st.Queued? ==> r in Stack(sh, st.w))
    && (st.Asked? ==> InCommands(Queue(sh.cmd, st.w, st.o), r))
    && (st.Replied? ==> InReplies(Queue(sh.reply, st.o, st.w), r))
  }

  ghost predicate AllFound(sh: Shared) {
    forall r {:trigger FoundOk(sh, r)} :: 0 <= r < |sh.reqs| ==> FoundOk(sh, r)
  }

  ghost predicate SharedOk(sh: Shared) {
    IsPow2(sh.n) && sh.cap > 0 && HistoryOk(sh) && TransitOk(sh) && AllFound(sh)
  }

  // The shard of worker `i` is its part of the one map.
  ghost predicate ShardOk(sh: Shared, i: nat, shard: Contents) {
    forall k {:trigger Look(shard, k)} :: Look(shard, k) == if Home(sh.n, k) == i then Look(Replay(sh.log), k) else None
  }

  predicate Fulfilling(pc: Pc, r: Id) { (pc.Storing? || pc.Publishing?) && pc.req == r }

  predicate PcOk(n: nat, w: Worker) {
    var fromCollect := (w.pc.Storing? || w.pc.Publishing?) && w.pc.back.Some?;
    var fromBatch := (w.pc.Storing? || w.pc.Publishing?) && w.pc.back.None?;
    && (w.pc.Popping? || w.pc.Collecting? ==> w.pc.src <= n)
    && (fromCollect ==> w.pc.back.value <= n)
    && (w.answering.Some? ==> w.pc.Answering? || w.pc.Collecting? || fromCollect)
    && (w.answering.Some? ==> w.answering.value.src < n)
    && (w.pc.Answering? ==> w.answering.Some?)
    && (w.sending.Some? ==> !w.pc.Draining? && !w.pc.Serving? && !fromBatch)
    && (w.pc.Sending? ==> w.sending.Some?)
    && (w.batch != [] ==> w.sending.Some? || w.pc.Serving? || fromBatch)
  }

  predicate CarriesOk(sh: Shared, i: nat, w: Worker) {
    && (w.sending.Some? ==>
          var c := w.sending.value;
          c.GetCommand? && c.from == i && At(sh, c.req, Forwarding(i, c.token)) && sh.reqs[c.req].op == Get(c.key))
    && (w.answering.Some? ==>
          var a := w.answering.value;
          At(sh, a.reply.req, Answered(a.to, i, a.reply.token, a.reply.val)))
    && (w.pc.Storing? ==> At(sh, w.pc.req, Settling(i, w.pc.val)))
    && (w.pc.Publishing? ==> w.pc.req < |sh.reqs| && At(sh, w.pc.req, Settling(i, sh.reqs[w.pc.req].value)))
  }

  ghost predicate BatchOk(sh: Shared, i: nat, batch: seq<Id>) {
    && (forall k :: 0 <= k < |batch| ==> At(sh, batch[k], Batched(i)))
    && (forall k, l :: 0 <= k < l < |batch| ==> batch[k] != batch[l])
  }

  // The waiting map is the inverse of the tokens in flight.
  predicate Waits(sh: Shared, i: nat, waiters: map<nat, Id>, r: Id)
    requires r < |sh.reqs|
  {
    var t := Ticket(sh.reqs[r].stage, i);
    t.Some? ==> t.value in waiters && waiters[t.value] == r
  }

  ghost predicate WaitersOk(sh: Shared, i: nat, waiters: map<nat, Id>, next: nat) {
    && (forall r {:trigger Waits(sh, i, waiters, r)} :: 0 <= r < |sh.reqs| ==> Waits(sh, i, waiters, r))
    && (forall t :: t in waiters ==>
          i * TOKENS <= t < i * TOKENS + next && waiters[t] < |sh.reqs| &&
              Ticket(sh.reqs[waiters[t]].stage, i) == Some(t))
  }

  // What a worker holds, and conversely that what it is said to hold is there.
  predicate HeldOk(sh: Shared, i: nat, w: Worker, r: Id)
    requires r < |sh.reqs|
  {
    var st := sh.reqs[r].stage;
    Holder(st) == Some(i) ==>
      && (st.Batched? ==> r in w.batch)
      && (st.Forwarding? ==> w.sending.Some? && w.sending.value.req == r)
      && (st.Answered? ==> w.answering.Some? && w.answering.value.reply.req == r)
      && (st.Settling? ==> Fulfilling(w.pc, r))
  }

  ghost predicate AllHeld(sh: Shared, i: nat, w: Worker) {
    forall r {:trigger HeldOk(sh, i, w, r)} :: 0 <= r < |sh.reqs| ==> HeldOk(sh, i, w, r)
  }

  ghost predicate WorkerOk(sh: Shared, i: nat, w: Worker) {
    && i < sh.n
    && PcOk(sh.n, w) && CarriesOk(sh, i, w) && BatchOk(sh, i, w.batch)
    && ShardOk(sh, i, w.shard) && WaitersOk(sh, i, w.waiters, w.nextToken) && AllHeld(sh, i, w)
  }

  ghost predicate Inv(s: State) {
    && SharedOk(s.sh) && |s.workers| == s.sh.n
    && forall i {:trigger WorkerOk(s.sh, i, s.workers[i])} :: 0 <= i < |s.workers| ==> WorkerOk(s.sh, i, s.workers[i])
  }

  // ---------------------------------------------------------------------------
  // What a step leaves alone for worker `i`
  // ---------------------------------------------------------------------------

  predicate SameFor(sh: Shared, sh': Shared, i: nat, r: Id)
    requires r < |sh'.reqs|
  {
    if r >= |sh.reqs| then Holder(sh'.reqs[r].stage) != Some(i) && Ticket(sh'.reqs[r].stage, i) == None
    else
      var st, st' := sh.reqs[r].stage, sh'.reqs[r].stage;
      && sh'.reqs[r].op == sh.reqs[r].op
      && (Holder(st) == Some(i) || Holder(st') == Some(i) ==> sh'.reqs[r] == sh.reqs[r])
      && Ticket(st, i) == Ticket(st', i)
  }

  ghost predicate Rely(sh: Shared, sh': Shared, i: nat) {
    && sh'.n == sh.n && sh'.cap == sh.cap && |sh.reqs| <= |sh'.reqs|
    && (forall r {:trigger SameFor(sh, sh', i, r)} :: 0 <= r < |sh'.reqs| ==> SameFor(sh, sh', i, r))
    && (forall k {:trigger Home(sh.n, k)} :: Home(sh.n, k) == i ==> Look(Replay(sh'.log), k) == Look(Replay(sh.log), k))
  }

  lemma WorkerUndisturbed(sh: Shared, sh': Shared, i: nat, w: Worker)
    requires WorkerOk(sh, i, w) && Rely(sh, sh', i)
    ensures WorkerOk(sh', i, w)
  {
    hide Replay, IsPow2, Route;
    UndisturbedWaiters(sh, sh', i, w);
    forall r | 0 <= r < |sh'.reqs|
      ensures HeldOk(sh', i, w, r)
    {
      assert SameFor(sh, sh', i, r);
      assert r < |sh.reqs| ==> HeldOk(sh, i, w, r);
    }
    forall r | 0 <= r < |sh.reqs| && Holder(sh.reqs[r].stage) == Some(i)
      ensures sh'.reqs[r] == sh.reqs[r]
    {
      assert SameFor(sh, sh', i, r);
    }
    forall k
      ensures Look(w.shard, k) == if Home(sh'.n, k) == i then Look(Replay(sh'.log), k) else None
    {
      assert Home(sh.n, k) == Home(sh'.n, k);
    }
  }

  lemma UndisturbedWaiters(sh: Shared, sh': Shared, i: nat, w: Worker)
    requires WorkerOk(sh, i, w) && Rely(sh, sh', i)
    ensures WaitersOk(sh', i, w.waiters, w.nextToken)
  {
    hide Replay, IsPow2, Route, PcOk, CarriesOk, BatchOk, ShardOk, AllHeld;
    forall r | 0 <= r < |sh'.reqs|
      ensures Waits(sh', i, w.waiters, r)
    {
      assert SameFor(sh, sh', i, r);
      assert r < |sh.reqs| ==> Waits(sh, i, w.waiters, r);
    }
    forall t | t in w.waiters
      ensures w.waiters[t] < |sh'.reqs| && Ticket(sh'.reqs[w.waiters[t]].stage, i) == Some(t)
    {
      assert SameFor(sh, sh', i, w.waiters[t]);
    }
  }
}
