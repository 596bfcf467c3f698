/** Every step of every client and worker of the service keeps the invariant, and
  * only moves requests forward.
  */
module ServiceSteps {
  import opened Common
  import opened Keys
  import opened Bits
  import opened Matrix
  import opened Service

  // ---------------------------------------------------------------------------
  // Moving one request
  // ---------------------------------------------------------------------------

  // Only request `r` changes its record.
  ghost predicate Moved(sh: Shared, sh': Shared, r: Id) {
    && sh'.n == sh.n && sh'.cap == sh.cap
    && r < |sh.reqs| == |sh'.reqs| && sh'.reqs[r].op == sh.reqs[r].op && sh'.reqs[r].begin == sh.reqs[r].begin
    && forall x {:trigger sh'.reqs[x]} :: 0 <= x < |sh.reqs| && x != r ==> sh'.reqs[x] == sh.reqs[x]
  }

  lemma MovedCommands(sh: Shared, sh': Shared, r: Id, i: nat, j: nat)
    requires Moved(sh, sh', r) && CommandsOk(sh, i, j) && Queue(sh'.cmd, i, j) == Queue(sh.cmd, i, j)
    requires sh.reqs[r].stage.Asked? ==> sh.reqs[r].stage.w != i || sh.reqs[r].stage.o != j
    ensures CommandsOk(sh', i, j)
  {
    var q := Queue(sh.cmd, i, j);
    forall k | 0 <= k < |q|
      ensures CommandOk(sh', i, j, q[k])
    {
      assert CommandOk(sh, i, j, q[k]);
    }
  }

  lemma MovedReplies(sh: Shared, sh': Shared, r: Id, j: nat, i: nat)
    requires Moved(sh, sh', r) && RepliesOk(sh, j, i) && Queue(sh'.reply, j, i) == Queue(sh.reply, j, i)
    requires sh.reqs[r].stage.Replied? ==> sh.reqs[r].stage.w != i || sh.reqs[r].stage.o != j
    ensures RepliesOk(sh', j, i)
  {
    var q := Queue(sh.reply, j, i);
    forall k | 0 <= k < |q|
      ensures ReplyOk(sh', j, i, q[k])
    {
      assert ReplyOk(sh, j, i, q[k]);
    }
  }

  lemma MovedIngress(sh: Shared, sh': Shared, r: Id, i: nat)
    requires Moved(sh, sh', r) && IngressOk(sh, i) && Stack(sh', i) == Stack(sh, i) && !sh.reqs[r].stage.Queued?
    ensures IngressOk(sh', i)
  {
    var b := Stack(sh, i);
    forall k | 0 <= k < |b|
      ensures At(sh', b[k], Queued(i))
    {
      assert At(sh, b[k], Queued(i));
    }
  }

  lemma MovedHistory(sh: Shared, sh': Shared, r: Id)
    requires HistoryOk(sh) && Moved(sh, sh', r) && sh'.log == sh.log && RequestOk(sh', r)
    requires Effected(sh.reqs[r].stage) ==> Effected(sh'.reqs[r].stage) && sh'.reqs[r].at == sh.reqs[r].at
    ensures HistoryOk(sh')
  {
    hide Legal, IsPow2, Route;
    forall x | 0 <= x < |sh'.reqs|
      ensures RequestOk(sh', x)
    {
      assert RequestOk(sh, x);
    }
    forall k | 0 <= k < |sh'.log|
      ensures EventOk(sh', k)
    {
      assert EventOk(sh, k);
    }
  }

  // An effect: the request is logged with the answer of the one map.
  ghost predicate Committed(sh: Shared, sh': Shared, r: Id) {
    && Moved(sh, sh', r) && Effected(sh'.reqs[r].stage) && sh'.reqs[r].at == |sh.log|
    && sh'.log == sh.log + [Event(r, sh.reqs[r].op, sh'.reqs[r].stage.val)]
  }

  lemma CommitHistory(sh: Shared, sh': Shared, r: Id)
    requires HistoryOk(sh) && Committed(sh, sh', r) && !Effected(sh.reqs[r].stage)
    requires RequestOk(sh', r) && sh'.reqs[r].stage.val == Respond(Replay(sh.log), sh.reqs[r].op)
    ensures HistoryOk(sh') && Replay(sh'.log) == Apply(Replay(sh.log), sh.reqs[r].op)
  {
    hide Legal, Replay, IsPow2, Route;
    LogGrows(sh.log, Event(r, sh.reqs[r].op, sh'.reqs[r].stage.val));
    forall x | 0 <= x < |sh'.reqs|
      ensures RequestOk(sh', x)
    {
      assert RequestOk(sh, x);
    }
    forall k | 0 <= k < |sh'.log|
      ensures EventOk(sh', k)
    {
      assert k < |sh.log| ==> EventOk(sh, k);
    }
  }

  // Every queue still has what it had, except possibly `r`.
  ghost predicate KeepsOthers(sh: Shared, sh': Shared, r: Id) {
    && (forall i, j, x {:trigger InCommands(Queue(sh'.cmd, i, j), x)} ::
          x != r && InCommands(Queue(sh.cmd, i, j), x) ==> InCommands(Queue(sh'.cmd, i, j), x))
    && (forall i, j, x {:trigger InReplies(Queue(sh'.reply, i, j), x)} ::
          x != r && InReplies(Queue(sh.reply, i, j), x) ==> InReplies(Queue(sh'.reply, i, j), x))
    && sh'.ingress == sh.ingress
  }

  lemma MovedFound(sh: Shared, sh': Shared, r: Id)
    requires AllFound(sh) && Moved(sh, sh', r) && KeepsOthers(sh, sh', r) && FoundOk(sh', r)
    ensures AllFound(sh')
  {
    hide InCommands, InReplies;
    forall x | 0 <= x < |sh'.reqs|
      ensures FoundOk(sh', x)
    {
      assert FoundOk(sh, x);
    }
  }

  lemma PushedCommand(q: seq<Command>, c: Command)
    ensures InCommands(q + [c], c.req)
    ensures forall x :: InCommands(q, x) ==> InCommands(q + [c], x)
  {
    assert (q + [c])[|q|] == c;
    forall x | InCommands(q, x)
      ensures InCommands(q + [c], x)
    {
      var k :| 0 <= k < |q| && q[k].req == x;
      assert (q + [c])[k] == q[k];
    }
  }

  lemma PoppedCommand(q: seq<Command>)
    requires q != []
    ensures forall x :: InCommands(q, x) && x != q[0].req ==> InCommands(q[1..], x)
  {
    forall x | InCommands(q, x) && x != q[0].req
      ensures InCommands(q[1..], x)
    {
      var k :| 0 <= k < |q| && q[k].req == x;
      assert q[1..][k - 1] == q[k];
    }
  }

  lemma PushedReply(q: seq<Reply>, p: Reply)
    ensures InReplies(q + [p], p.req)
    ensures forall x :: InReplies(q, x) ==> InReplies(q + [p], x)
  {
    assert (q + [p])[|q|] == p;
    forall x | InReplies(q, x)
      ensures InReplies(q + [p], x)
    {
      var k :| 0 <= k < |q| && q[k].req == x;
      assert (q + [p])[k] == q[k];
    }
  }

  lemma PoppedReply(q: seq<Reply>)
    requires q != []
    ensures forall x :: InReplies(q, x) && x != q[0].req ==> InReplies(q[1..], x)
  {
    forall x | InReplies(q, x) && x != q[0].req
      ensures InReplies(q[1..], x)
    {
      var k :| 0 <= k < |q| && q[k].req == x;
      assert q[1..][k - 1] == q[k];
    }
  }

  // The move concerns no worker but `i`: nobody else held the request before or
  // holds it now, and its ticket elsewhere stays.
  ghost predicate LocalMove(sh: Shared, sh': Shared, r: Id, i: nat) {
    && Moved(sh, sh', r)
    && (Holder(sh.reqs[r].stage) == None || Holder(sh.reqs[r].stage) == Some(i))
    && (Holder(sh'.reqs[r].stage) == None || Holder(sh'.reqs[r].stage) == Some(i))
    && (forall k :: k != i ==> Ticket(sh.reqs[r].stage, k) == Ticket(sh'.reqs[r].stage, k))
  }

  ghost predicate OthersRely(sh: Shared, sh': Shared, i: nat) {
    forall k {:trigger Rely(sh, sh', k)} :: k != i ==> Rely(sh, sh', k)
  }

  lemma LocalRely(sh: Shared, sh': Shared, r: Id, i: nat)
    requires LocalMove(sh, sh', r, i)
    requires forall k {:trigger Home(sh.n, k)} :: Home(sh.n, k) != i ==>
        Look(Replay(sh'.log), k) == Look(Replay(sh.log), k)
    ensures OthersRely(sh, sh', i)
  {
    hide Replay, IsPow2, Route;
    forall k: nat | k != i
      ensures Rely(sh, sh', k)
    {
      forall x | 0 <= x < |sh'.reqs|
        ensures SameFor(sh, sh', k, x)
      {
        assert x != r ==> sh'.reqs[x] == sh.reqs[x];
      }
    }
  }

  // ---------------------------------------------------------------------------
  // Steps only move requests forward
  // ---------------------------------------------------------------------------

  // How many stages a request still has before it.
  function Weight(st: Stage): nat {
    match st
    case Queued(_) => 8
    case Batched(_) => 7
    case Forwarding(_, _) => 6
    case Asked(_, _, _) => 5
    case Answered(_, _, _, _) => 4
    case Replied(_, _, _, _) => 3
    case Settling(_, _) => 2
    case Done(_) => 1
    case Returned(_) => 0
  }

  predicate RequestForward(q: Request, q': Request) {
    && q'.op == q.op && q'.begin == q.begin
    && (Effected(q.stage) ==> Effected(q'.stage) && q'.at == q.at)
    && (q.stage.Returned? ==> q' == q)
    && Weight(q'.stage) <= Weight(q.stage)
  }

  ghost predicate Forward(sh: Shared, sh': Shared) {
    && |sh.log| <= |sh'.log| && sh'.log[..|sh.log|] == sh.log && |sh.reqs| <= |sh'.reqs|
    && (forall r {:trigger sh'.reqs[r]} :: 0 <= r < |sh.reqs| ==> RequestForward(sh.reqs[r], sh'.reqs[r]))
    && (forall r {:trigger sh'.reqs[r]} :: |sh.reqs| <= r < |sh'.reqs| ==> sh'.reqs[r].begin == |sh'.log|)
  }

  // Some request advances.
  ghost predicate Advanced(sh: Shared, sh': Shared, r: Id) {
    r < |sh.reqs| <= |sh'.reqs| && Weight(sh'.reqs[r].stage) < Weight(sh.reqs[r].stage)
  }

  ghost predicate Effect(sh: Shared, sh': Shared) {
    exists r :: Advanced(sh, sh', r)
  }

  // Nothing moves: the same queues, the same stages.
  ghost predicate Quiet(sh: Shared, sh': Shared) {
    && sh'.n == sh.n && sh'.cap == sh.cap && sh'.cmd == sh.cmd && sh'.reply == sh.reply && sh'.ingress == sh.ingress
    && |sh'.reqs| == |sh.reqs| && forall r {:trigger sh'.reqs[r]} :: 0 <= r < |sh.reqs| ==>
        sh'.reqs[r].stage == sh.reqs[r].stage
  }

  ghost predicate Moves(sh: Shared, sh': Shared) {
    Forward(sh, sh') && (Quiet(sh, sh') || Effect(sh, sh'))
  }

  lemma MovedForward(sh: Shared, sh': Shared, r: Id)
    requires Moved(sh, sh', r) && !sh.reqs[r].stage.Returned?
    requires (sh'.log == sh.log && sh'.reqs[r].at == sh.reqs[r].at) ||
        (Committed(sh, sh', r) && !Effected(sh.reqs[r].stage))
    requires Effected(sh.reqs[r].stage) ==> Effected(sh'.reqs[r].stage)
    requires Weight(sh'.reqs[r].stage) < Weight(sh.reqs[r].stage)
    ensures Moves(sh, sh')
  {
    assert Advanced(sh, sh', r);
  }

  // ---------------------------------------------------------------------------
  // Each step keeps the invariant
  // ---------------------------------------------------------------------------

  ghost predicate Kept(sh: Shared, i: nat, o: Out) {
    && SharedOk(o.sh) && WorkerOk(o.sh, i, o.w) && OthersRely(sh, o.sh, i)
    && o.sh.n == sh.n && o.sh.cap == sh.cap && Moves(sh, o.sh)
  }

  lemma NothingMoved(sh: Shared, i: nat)
    ensures OthersRely(sh, sh, i) && Moves(sh, sh)
  {
  }

  // The next worker state holds the same things at another program point.
  lemma Walked(sh: Shared, i: nat, w: Worker, w': Worker)
    requires SharedOk(sh) && WorkerOk(sh, i, w) && PcOk(sh.n, w')
    requires w' == w.(pc := w'.pc)
    requires !w.pc.Storing? && !w.pc.Publishing? && !w'.pc.Storing? && !w'.pc.Publishing?
    ensures Kept(sh, i, Out(sh, w'))
  {
    hide SharedOk, ShardOk, WaitersOk, BatchOk, Rely, Moves;
    NothingMoved(sh, i);
    forall r | 0 <= r < |sh.reqs|
      ensures HeldOk(sh, i, w', r)
    {
      assert HeldOk(sh, i, w, r);
    }
  }

  // The head of an inbox is the oldest forwarded request for a key of this shard.
  lemma HeadCommand(sh: Shared, i: nat, src: nat)
    requires SharedOk(sh) && Queue(sh.cmd, src, i) != []
    ensures
      var c := Queue(sh.cmd, src, i)[0];
      && c.GetCommand? && c.from == src && At(sh, c.req, Asked(src, i, c.token)) && sh.reqs[c.req].op == Get(c.key)
      && Home(sh.n, c.key) == i && RequestOk(sh, c.req)
  {
    hide IsPow2, Route, Legal, AllFound;
    assert CommandsOk(sh, src, i);
    assert CommandOk(sh, src, i, Queue(sh.cmd, src, i)[0]);
    assert RequestOk(sh, Queue(sh.cmd, src, i)[0].req);
  }

  lemma PopCommandShared(sh: Shared, sh': Shared, i: nat, src: nat, r: Id)
    requires SharedOk(sh) && Queue(sh.cmd, src, i) != [] && Queue(sh.cmd, src, i)[0].req == r
    requires sh'.cmd == sh.cmd[Edge(src, i) := Queue(sh.cmd, src, i)[1..]] && sh'.reply == sh.reply &&
        sh'.ingress == sh.ingress
    requires Moved(sh, sh', r) && sh'.reqs[r].stage.Answered? && HistoryOk(sh')
    ensures SharedOk(sh')
  {
    hide HistoryOk, IsPow2, Legal, RequestOk;
    var q := Queue(sh.cmd, src, i);
    assert CommandsOk(sh, src, i);
    assert CommandOk(sh, src, i, q[0]);
    forall a: nat, b: nat
      ensures CommandsOk(sh', a, b)
    {
      assert CommandsOk(sh, a, b);
      if a == src && b == i {
        forall k | 0 <= k < |q[1..]|
          ensures CommandOk(sh', a, b, q[1..][k])
        {
          assert CommandOk(sh, a, b, q[k + 1]);
        }
      } else {
        MovedCommands(sh, sh', r, a, b);
      }
    }
    forall a: nat, b: nat
      ensures RepliesOk(sh', a, b)
    {
      assert RepliesOk(sh, a, b);
      MovedReplies(sh, sh', r, a, b);
    }
    forall a: nat
      ensures IngressOk(sh', a)
    {
      assert IngressOk(sh, a);
      MovedIngress(sh, sh', r, a);
    }
    PoppedCommand(q);
    MovedFound(sh, sh', r);
  }

  lemma PopKeeps(sh: Shared, i: nat, w: Worker, src: nat)
    requires SharedOk(sh) && WorkerOk(sh, i, w) && w.pc == Popping(src)
    ensures Kept(sh, i, PopStep(sh, i, w, src))
  {
    hide SharedOk, Rely, Moves, ShardOk, WaitersOk, BatchOk, AllHeld, CarriesOk;
    var o := PopStep(sh, i, w, src);
    if src >= sh.n || Queue(sh.cmd, src, i) == [] {
      Walked(sh, i, w, o.w);
    } else {
      HeadCommand(sh, i, src);
      PopGetKeeps(sh, i, w, src);
    }
  }

  lemma PopGetKeeps(sh: Shared, i: nat, w: Worker, src: nat)
    requires SharedOk(sh) && WorkerOk(sh, i, w) && w.pc == Popping(src)
    requires src < sh.n && Queue(sh.cmd, src, i) != []
    ensures Kept(sh, i, PopStep(sh, i, w, src))
  {
    hide CommandsOk, RepliesOk, IngressOk, AllFound, IsPow2, Route, Legal, Replay, WaitersOk, BatchOk, AllHeld, Rely,
        Moves;
    var o := PopStep(sh, i, w, src);
    HeadCommand(sh, i, src);
    var c := Queue(sh.cmd, src, i)[0];
    assert Look(w.shard, c.key) == Look(Replay(sh.log), c.key);
    assert Committed(sh, o.sh, c.req);
    CommitHistory(sh, o.sh, c.req);
    PopCommandShared(sh, o.sh, i, src, c.req);
    MovedForward(sh, o.sh, c.req);
    LocalRely(sh, o.sh, c.req, i);
    ActorWaiters(sh, o.sh, i, w, c.req);
    NotInBatch(sh, i, w.batch, c.req);
    ActorBatch(sh, o.sh, i, w.batch, c.req);
    PopGetHeld(sh, o.sh, i, w, o.w, c.req);
  }

  lemma PopGetHeld(sh: Shared, sh': Shared, i: nat, w: Worker, w': Worker, r: Id)
    requires AllHeld(sh, i, w) && Moved(sh, sh', r) && sh'.reqs[r].stage.Answered?
    requires w.answering.None? && w.pc.Popping?
    requires w'.answering.Some? && w'.answering.value.reply.req == r && w'.batch == w.batch && w'.sending == w.sending
    ensures AllHeld(sh', i, w')
  {
    forall x | 0 <= x < |sh'.reqs|
      ensures HeldOk(sh', i, w', x)
    {
      assert HeldOk(sh, i, w, x);
    }
  }

  // The acting worker's waiting map, when the request keeps its ticket.
  lemma ActorWaiters(sh: Shared, sh': Shared, i: nat, w: Worker, r: Id)
    requires WaitersOk(sh, i, w.waiters, w.nextToken) && Moved(sh, sh', r)
    requires Ticket(sh.reqs[r].stage, i) == Ticket(sh'.reqs[r].stage, i)
    ensures WaitersOk(sh', i, w.waiters, w.nextToken)
  {
    forall x | 0 <= x < |sh'.reqs|
      ensures Waits(sh', i, w.waiters, x)
    {
      assert Waits(sh, i, w.waiters, x);
    }
  }

  lemma ActorBatch(sh: Shared, sh': Shared, i: nat, batch: seq<Id>, r: Id)
    requires BatchOk(sh, i, batch) && Moved(sh, sh', r) && r !in batch
    ensures BatchOk(sh', i, batch)
  {
    forall k | 0 <= k < |batch|
      ensures At(sh', batch[k], Batched(i))
    {
      assert At(sh, batch[k], Batched(i));
    }
  }

  lemma NotInBatch(sh: Shared, i: nat, batch: seq<Id>, r: Id)
    requires BatchOk(sh, i, batch) && r < |sh.reqs| && !sh.reqs[r].stage.Batched?
    ensures r !in batch
  {
  }

  // --- Pushing a reply ---

  lemma PushReplyShared(sh: Shared, sh': Shared, i: nat, p: Reply, r: Id, to: nat)
    requires SharedOk(sh) && |Queue(sh.reply, i, to)| < sh.cap && p.req == r
    requires sh'.reply == sh.reply[Edge(i, to) := Queue(sh.reply, i, to) + [p]] && sh'.cmd == sh.cmd &&
        sh'.ingress == sh.ingress
    requires Moved(sh, sh', r) && sh.reqs[r].stage.Answered? && ReplyOk(sh', i, to, p) && HistoryOk(sh')
    ensures SharedOk(sh')
  {
    hide HistoryOk, IsPow2, Legal, RequestOk;
    var q := Queue(sh.reply, i, to);
    forall a: nat, b: nat
      ensures RepliesOk(sh', a, b)
    {
      assert RepliesOk(sh, a, b);
      if a == i && b == to {
        forall k | 0 <= k < |q|
          ensures ReplyOk(sh', a, b, q[k]) && q[k].req != r
        {
          assert ReplyOk(sh, a, b, q[k]);
        }
      } else {
        MovedReplies(sh, sh', r, a, b);
      }
    }
    forall a: nat, b: nat
      ensures CommandsOk(sh', a, b)
    {
      assert CommandsOk(sh, a, b);
      MovedCommands(sh, sh', r, a, b);
    }
    forall a: nat
      ensures IngressOk(sh', a)
    {
      assert IngressOk(sh, a);
      MovedIngress(sh, sh', r, a);
    }
    PushedReply(q, p);
    MovedFound(sh, sh', r);
  }

  lemma AnswerKeeps(sh: Shared, i: nat, w: Worker, a: Answer)
    requires SharedOk(sh) && WorkerOk(sh, i, w) && w.pc == Answering && w.answering == Some(a)
    ensures Kept(sh, i, AnswerStep(sh, i, w, a))
  {
    hide CommandsOk, RepliesOk, IngressOk, AllFound, IsPow2, Route, Legal, Replay, WaitersOk, BatchOk, AllHeld, Rely,
        Moves;
    var o := AnswerStep(sh, i, w, a);
    var r := a.reply.req;
    if |Queue(sh.reply, i, a.to)| < sh.cap {
      assert RequestOk(sh, r);
      MovedHistory(sh, o.sh, r);
      PushReplyShared(sh, o.sh, i, a.reply, r, a.to);
      MovedForward(sh, o.sh, r);
      LocalRely(sh, o.sh, r, i);
      ActorWaiters(sh, o.sh, i, w, r);
      NotInBatch(sh, i, w.batch, r);
      ActorBatch(sh, o.sh, i, w.batch, r);
      AnswerHeld(sh, o.sh, i, w, o.w, r);
    } else {
      Walked(sh, i, w, o.w);
    }
  }

  lemma AnswerHeld(sh: Shared, sh': Shared, i: nat, w: Worker, w': Worker, r: Id)
    requires AllHeld(sh, i, w) && Moved(sh, sh', r) && sh'.reqs[r].stage.Replied?
    requires w.answering.Some? && w.answering.value.reply.req == r && w.pc.Answering?
    requires w'.batch == w.batch && w'.sending == w.sending
    ensures AllHeld(sh', i, w')
  {
    forall x | 0 <= x < |sh'.reqs|
      ensures HeldOk(sh', i, w', x)
    {
      assert HeldOk(sh, i, w, x);
    }
  }

  // --- Taking a reply ---

  // A reply always finds its client: the token is waiting, for that very request.
  lemma HeadReply(sh: Shared, i: nat, w: Worker, src: nat)
    requires SharedOk(sh) && WorkerOk(sh, i, w) && Queue(sh.reply, src, i) != []
    ensures
      var p := Queue(sh.reply, src, i)[0];
      && At(sh, p.req, Replied(i, src, p.token, p.val)) && RequestOk(sh, p.req)
      && p.token in w.waiters && w.waiters[p.token] == p.req
  {
    hide IsPow2, Route, Legal, AllFound, ShardOk, BatchOk, AllHeld, CarriesOk, PcOk;
    assert RepliesOk(sh, src, i);
    var p := Queue(sh.reply, src, i)[0];
    assert ReplyOk(sh, src, i, p);
    assert RequestOk(sh, p.req);
    assert Waits(sh, i, w.waiters, p.req);
  }

  lemma PopReplyShared(sh: Shared, sh': Shared, i: nat, src: nat, r: Id)
    requires SharedOk(sh) && Queue(sh.reply, src, i) != [] && Queue(sh.reply, src, i)[0].req == r
    requires sh'.reply == sh.reply[Edge(src, i) := Queue(sh.reply, src, i)[1..]] && sh'.cmd == sh.cmd &&
        sh'.ingress == sh.ingress
    requires Moved(sh, sh', r) && sh'.reqs[r].stage.Settling? && HistoryOk(sh')
    ensures SharedOk(sh')
  {
    hide HistoryOk, IsPow2, Legal, RequestOk;
    var q := Queue(sh.reply, src, i);
    assert RepliesOk(sh, src, i);
    assert ReplyOk(sh, src, i, q[0]);
    forall a: nat, b: nat
      ensures RepliesOk(sh', a, b)
    {
      assert RepliesOk(sh, a, b);
      if a == src && b == i {
        forall k | 0 <= k < |q[1..]|
          ensures ReplyOk(sh', a, b, q[1..][k])
        {
          assert ReplyOk(sh, a, b, q[k + 1]);
        }
      } else {
        MovedReplies(sh, sh', r, a, b);
      }
    }
    forall a: nat, b: nat
      ensures CommandsOk(sh', a, b)
    {
      assert CommandsOk(sh, a, b);
      MovedCommands(sh, sh', r, a, b);
    }
    forall a: nat
      ensures IngressOk(sh', a)
    {
      assert IngressOk(sh, a);
      MovedIngress(sh, sh', r, a);
    }
    PoppedReply(q);
    MovedFound(sh, sh', r);
  }

  lemma CollectKeeps(sh: Shared, i: nat, w: Worker, src: nat)
    requires SharedOk(sh) && WorkerOk(sh, i, w) && w.pc == Collecting(src)
    ensures Kept(sh, i, CollectStep(sh, i, w, src))
  {
    hide SharedOk, Rely, Moves, ShardOk, WaitersOk, BatchOk, AllHeld, CarriesOk;
    var o := CollectStep(sh, i, w, src);
    if src >= sh.n || Queue(sh.reply, src, i) == [] {
      Walked(sh, i, w, o.w);
    } else {
      CollectReplyKeeps(sh, i, w, src);
    }
  }

  lemma CollectReplyKeeps(sh: Shared, i: nat, w: Worker, src: nat)
    requires SharedOk(sh) && WorkerOk(sh, i, w) && w.pc == Collecting(src)
    requires src < sh.n && Queue(sh.reply, src, i) != []
    ensures Kept(sh, i, CollectStep(sh, i, w, src))
  {
    hide CommandsOk, RepliesOk, IngressOk, AllFound, IsPow2, Route, Legal, Replay, WaitersOk, BatchOk, AllHeld, Rely,
        Moves;
    var o := CollectStep(sh, i, w, src);
    HeadReply(sh, i, w, src);
    var r := Queue(sh.reply, src, i)[0].req;
    MovedHistory(sh, o.sh, r);
    PopReplyShared(sh, o.sh, i, src, r);
    MovedForward(sh, o.sh, r);
    LocalRely(sh, o.sh, r, i);
    CollectWaiters(sh, o.sh, i, w, r);
    NotInBatch(sh, i, w.batch, r);
    ActorBatch(sh, o.sh, i, w.batch, r);
    CollectHeld(sh, o.sh, i, w, o.w, r);
  }

  lemma CollectWaiters(sh: Shared, sh': Shared, i: nat, w: Worker, r: Id)
    requires WaitersOk(sh, i, w.waiters, w.nextToken) && Moved(sh, sh', r)
    requires sh.reqs[r].stage.Replied? && sh.reqs[r].stage.w == i && sh'.reqs[r].stage.Settling?
    ensures WaitersOk(sh', i, w.waiters - {sh.reqs[r].stage.t}, w.nextToken)
  {
    var t := sh.reqs[r].stage.t;
    assert Waits(sh, i, w.waiters, r);
    forall x | 0 <= x < |sh'.reqs|
      ensures Waits(sh', i, w.waiters - {t}, x)
    {
      assert Waits(sh, i, w.waiters, x);
    }
  }

  lemma CollectHeld(sh: Shared, sh': Shared, i: nat, w: Worker, w': Worker, r: Id)
    requires AllHeld(sh, i, w) && Moved(sh, sh', r) && sh'.reqs[r].stage.Settling?
    requires w.pc.Collecting? && Fulfilling(w'.pc, r)
    requires w'.batch == w.batch && w'.sending == w.sending && w'.answering == w.answering
    ensures AllHeld(sh', i, w')
  {
    forall x | 0 <= x < |sh'.reqs|
      ensures HeldOk(sh', i, w', x)
    {
      assert HeldOk(sh, i, w, x);
    }
  }

  // --- Fulfilling a completion ---

  // Changing the record of a request its worker is settling touches no queue.
  lemma SettleShared(sh: Shared, sh': Shared, r: Id)
    requires SharedOk(sh) && Moved(sh, sh', r) && sh.reqs[r].stage.Settling? && HistoryOk(sh')
    requires sh'.cmd == sh.cmd && sh'.reply == sh.reply && sh'.ingress == sh.ingress
    requires sh'.reqs[r].stage.Settling? || sh'.reqs[r].stage.Done?
    ensures SharedOk(sh')
  {
    hide HistoryOk, IsPow2, Legal, RequestOk;
    SameQueues(sh, sh', r);
    MovedFound(sh, sh', r);
  }

  lemma SameQueues(sh: Shared, sh': Shared, r: Id)
    requires TransitOk(sh) && Moved(sh, sh', r)
    requires sh'.cmd == sh.cmd && sh'.reply == sh.reply && sh'.ingress == sh.ingress
    requires var st := sh.reqs[r].stage; !st.Asked? && !st.Replied? && !st.Queued?
    ensures TransitOk(sh')
  {
    forall a: nat, b: nat
      ensures CommandsOk(sh', a, b)
    {
      assert CommandsOk(sh, a, b);
      MovedCommands(sh, sh', r, a, b);
    }
    forall a: nat, b: nat
      ensures RepliesOk(sh', a, b)
    {
      assert RepliesOk(sh, a, b);
      MovedReplies(sh, sh', r, a, b);
    }
    forall a: nat
      ensures IngressOk(sh', a)
    {
      assert IngressOk(sh, a);
      MovedIngress(sh, sh', r, a);
    }
  }

  lemma StoreKeeps(sh: Shared, i: nat, w: Worker, r: Id, val: Option<Value>, back: Option<nat>)
    requires SharedOk(sh) && WorkerOk(sh, i, w) && w.pc == Storing(r, val, back)
    ensures Kept(sh, i, StoreStep(sh, w, r, val, back))
  {
    hide CommandsOk, RepliesOk, IngressOk, AllFound, IsPow2, Route, Legal, Replay, WaitersOk, BatchOk, AllHeld, Rely;
    var o := StoreStep(sh, w, r, val, back);
    assert RequestOk(sh, r);
    MovedHistory(sh, o.sh, r);
    SettleShared(sh, o.sh, r);
    assert Quiet(sh, o.sh) && Forward(sh, o.sh);
    LocalRely(sh, o.sh, r, i);
    ActorWaiters(sh, o.sh, i, w, r);
    NotInBatch(sh, i, w.batch, r);
    ActorBatch(sh, o.sh, i, w.batch, r);
    SettleHeld(sh, o.sh, i, w, o.w, r);
  }

  lemma PublishKeeps(sh: Shared, i: nat, w: Worker, r: Id, back: Option<nat>)
    requires SharedOk(sh) && WorkerOk(sh, i, w) && w.pc == Publishing(r, back)
    ensures Kept(sh, i, PublishStep(sh, w, r, back))
  {
    hide CommandsOk, RepliesOk, IngressOk, AllFound, IsPow2, Route, Legal, Replay, WaitersOk, BatchOk, AllHeld, Rely,
        Moves;
    var o := PublishStep(sh, w, r, back);
    assert RequestOk(sh, r);
    MovedHistory(sh, o.sh, r);
    SettleShared(sh, o.sh, r);
    MovedForward(sh, o.sh, r);
    LocalRely(sh, o.sh, r, i);
    ActorWaiters(sh, o.sh, i, w, r);
    NotInBatch(sh, i, w.batch, r);
    ActorBatch(sh, o.sh, i, w.batch, r);
    SettleHeld(sh, o.sh, i, w, o.w, r);
  }

  lemma SettleHeld(sh: Shared, sh': Shared, i: nat, w: Worker, w': Worker, r: Id)
    requires AllHeld(sh, i, w) && Moved(sh, sh', r) && Fulfilling(w.pc, r)
    requires sh'.reqs[r].stage.Done? || (sh'.reqs[r].stage.Settling? && Fulfilling(w'.pc, r))
    requires w'.batch == w.batch && w'.sending == w.sending && w'.answering == w.answering
    ensures AllHeld(sh', i, w')
  {
    forall x | 0 <= x < |sh'.reqs|
      ensures HeldOk(sh', i, w', x)
    {
      assert HeldOk(sh, i, w, x);
    }
  }

  // --- Pushing a command ---

  lemma PushCommandShared(sh: Shared, sh': Shared, i: nat, o: nat, c: Command)
    requires SharedOk(sh) && |Queue(sh.cmd, i, o)| < sh.cap
    requires sh'.cmd == sh.cmd[Edge(i, o) := Queue(sh.cmd, i, o) + [c]] && sh'.reply == sh.reply &&
        sh'.ingress == sh.ingress
    requires Moved(sh, sh', c.req) && sh.reqs[c.req].stage.Forwarding? && CommandOk(sh', i, o, c) && HistoryOk(sh')
    ensures SharedOk(sh')
  {
    hide HistoryOk, IsPow2, Legal, RequestOk;
    var q, r := Queue(sh.cmd, i, o), c.req;
    forall a: nat, b: nat
      ensures CommandsOk(sh', a, b)
    {
      assert CommandsOk(sh, a, b);
      if a == i && b == o {
        forall k | 0 <= k < |q|
          ensures CommandOk(sh', a, b, q[k]) && q[k].req != r
        {
          assert CommandOk(sh, a, b, q[k]);
        }
      } else {
        MovedCommands(sh, sh', r, a, b);
      }
    }
    forall a: nat, b: nat
      ensures RepliesOk(sh', a, b)
    {
      assert RepliesOk(sh, a, b);
      MovedReplies(sh, sh', r, a, b);
    }
    forall a: nat
      ensures IngressOk(sh', a)
    {
      assert IngressOk(sh, a);
      MovedIngress(sh, sh', r, a);
    }
    PushedCommand(q, c);
    MovedFound(sh, sh', r);
  }

  lemma SendKeeps(sh: Shared, i: nat, w: Worker, c: Command)
    requires SharedOk(sh) && WorkerOk(sh, i, w) && w.pc == Sending && w.sending == Some(c)
    ensures Kept(sh, i, SendStep(sh, i, w, c))
  {
    hide CommandsOk, RepliesOk, IngressOk, AllFound, IsPow2, Route, Legal, Replay, WaitersOk, BatchOk, AllHeld, Rely,
        Moves;
    var o := SendStep(sh, i, w, c);
    var r := c.req;
    if |Queue(sh.cmd, i, Home(sh.n, c.key))| < sh.cap {
      assert RequestOk(sh, r);
      MovedHistory(sh, o.sh, r);
      PushCommandShared(sh, o.sh, i, Home(sh.n, c.key), c);
      MovedForward(sh, o.sh, r);
      LocalRely(sh, o.sh, r, i);
      ActorWaiters(sh, o.sh, i, w, r);
      NotInBatch(sh, i, w.batch, r);
      ActorBatch(sh, o.sh, i, w.batch, r);
      SendHeld(sh, o.sh, i, w, o.w, r);
    } else {
      Walked(sh, i, w, o.w);
    }
  }

  lemma SendHeld(sh: Shared, sh': Shared, i: nat, w: Worker, w': Worker, r: Id)
    requires AllHeld(sh, i, w) && Moved(sh, sh', r) && sh'.reqs[r].stage.Asked?
    requires w.sending.Some? && w.sending.value.req == r && w.pc.Sending?
    requires w'.batch == w.batch && w'.answering == w.answering
    ensures AllHeld(sh', i, w')
  {
    forall x | 0 <= x < |sh'.reqs|
      ensures HeldOk(sh', i, w', x)
    {
      assert HeldOk(sh, i, w, x);
    }
  }

  // --- Serving the batch ---

  lemma TokenIs(i: nat, k: nat)
    requires k < TOKENS
    ensures Token(i, k) == i * TOKENS + k
  {
    WordIsPow2();
    OrDisjoint(i, k, TOKENS);
  }

  // The request left the batch and no queue has it.
  lemma ServeShared(sh: Shared, sh': Shared, r: Id)
    requires SharedOk(sh) && Moved(sh, sh', r) && sh.reqs[r].stage.Batched? && HistoryOk(sh')
    requires sh'.cmd == sh.cmd && sh'.reply == sh.reply && sh'.ingress == sh.ingress
    requires sh'.reqs[r].stage.Settling? || sh'.reqs[r].stage.Forwarding?
    ensures SharedOk(sh')
  {
    hide HistoryOk, IsPow2, Legal, RequestOk;
    SameQueues(sh, sh', r);
    MovedFound(sh, sh', r);
  }

  lemma ServeBatch(sh: Shared, sh': Shared, i: nat, batch: seq<Id>)
    requires batch != [] && BatchOk(sh, i, batch) && Moved(sh, sh', batch[0])
    ensures BatchOk(sh', i, batch[1..])
  {
    forall k | 0 <= k < |batch[1..]|
      ensures At(sh', batch[1..][k], Batched(i))
    {
      assert At(sh, batch[k + 1], Batched(i));
    }
  }

  lemma ServeHeld(sh: Shared, sh': Shared, i: nat, w: Worker, w': Worker, r: Id)
    requires AllHeld(sh, i, w) && Moved(sh, sh', r) && w.pc.Serving? && w.batch != [] && w.batch[0] == r
    requires w.sending.None? && w'.answering == w.answering && w'.batch == w.batch[1..]
    requires var st := sh'.reqs[r].stage;
      (st.Settling? && Fulfilling(w'.pc, r)) || (st.Forwarding? && w'.sending.Some? && w'.sending.value.req == r)
    ensures AllHeld(sh', i, w')
  {
    forall x | 0 <= x < |sh'.reqs|
      ensures HeldOk(sh', i, w', x)
    {
      assert HeldOk(sh, i, w, x);
      assert w.batch == [w.batch[0]] + w.batch[1..];
    }
  }

  lemma PutShard(sh: Shared, sh': Shared, i: nat, shard: Contents, k: Key, v: Value)
    requires ShardOk(sh, i, shard) && sh'.n == sh.n && Home(sh.n, k) == i
    requires Replay(sh'.log) == Replay(sh.log)[k := v]
    ensures ShardOk(sh', i, shard[k := v])
  {
    hide Replay, IsPow2, Route;
    forall x
      ensures Look(shard[k := v], x) == if Home(sh'.n, x) == i then Look(Replay(sh'.log), x) else None
    {
      assert Look(shard, x) == if Home(sh.n, x) == i then Look(Replay(sh.log), x) else None;
      assert Home(sh.n, x) == Home(sh'.n, x);
    }
  }

  // Served from this worker's own shard: the effect.
  lemma ServeLocalKeeps(sh: Shared, i: nat, w: Worker)
    requires SharedOk(sh) && WorkerOk(sh, i, w) && w.pc == Serving && w.batch != []
    requires w.batch[0] < |sh.reqs| && Home(sh.n, sh.reqs[w.batch[0]].op.key) == i
    ensures Kept(sh, i, ServeStep(sh, i, w))
  {
    hide CommandsOk, RepliesOk, IngressOk, AllFound, IsPow2, Route, Legal, Replay, WaitersOk, BatchOk, AllHeld, Rely,
        Moves;
    var o := ServeStep(sh, i, w);
    var r := w.batch[0];
    HeadBatched(sh, i, w.batch);
    assert RequestOk(sh, r);
    var op := sh.reqs[r].op;
    assert Look(w.shard, op.key) == Look(Replay(sh.log), op.key);
    CommitHistory(sh, o.sh, r);
    ServeShared(sh, o.sh, r);
    MovedForward(sh, o.sh, r);
    LocalRely(sh, o.sh, r, i);
    ActorWaiters(sh, o.sh, i, w, r);
    ServeBatch(sh, o.sh, i, w.batch);
    ServeHeld(sh, o.sh, i, w, o.w, r);
    if op.Put? {
      PutShard(sh, o.sh, i, w.shard, op.key, op.val);
    }
  }

  lemma HeadBatched(sh: Shared, i: nat, batch: seq<Id>)
    requires BatchOk(sh, i, batch) && batch != []
    ensures At(sh, batch[0], Batched(i))
  {
  }

  // Forwarded to the owner under a token nothing waits on.
  lemma ServeForwardKeeps(sh: Shared, i: nat, w: Worker)
    requires SharedOk(sh) && WorkerOk(sh, i, w) && w.pc == Serving && w.batch != [] && w.nextToken < TOKENS
    requires w.batch[0] < |sh.reqs| && Home(sh.n, sh.reqs[w.batch[0]].op.key) != i
    ensures Kept(sh, i, ServeStep(sh, i, w))
  {
    hide CommandsOk, RepliesOk, IngressOk, AllFound, IsPow2, Route, Legal, Replay, WaitersOk, BatchOk, AllHeld, Rely,
        Moves, Token;
    var o := ServeStep(sh, i, w);
    var r := w.batch[0];
    HeadBatched(sh, i, w.batch);
    assert RequestOk(sh, r);
    MovedHistory(sh, o.sh, r);
    ServeShared(sh, o.sh, r);
    MovedForward(sh, o.sh, r);
    LocalRely(sh, o.sh, r, i);
    ForwardWaiters(sh, o.sh, i, w, r);
    ServeBatch(sh, o.sh, i, w.batch);
    ServeHeld(sh, o.sh, i, w, o.w, r);
  }

  lemma ForwardWaiters(sh: Shared, sh': Shared, i: nat, w: Worker, r: Id)
    requires WaitersOk(sh, i, w.waiters, w.nextToken) && Moved(sh, sh', r) && w.nextToken < TOKENS
    requires sh.reqs[r].stage.Batched? && sh'.reqs[r].stage == Forwarding(i, Token(i, w.nextToken))
    ensures WaitersOk(sh', i, w.waiters[Token(i, w.nextToken) := r], w.nextToken + 1)
  {
    hide Token;
    var t := Token(i, w.nextToken);
    TokenIs(i, w.nextToken);
    var waiters := w.waiters[t := r];
    forall x | 0 <= x < |sh'.reqs|
      ensures Waits(sh', i, waiters, x)
    {
      assert Waits(sh, i, w.waiters, x);
    }
  }

  lemma ServeKeeps(sh: Shared, i: nat, w: Worker)
    requires SharedOk(sh) && WorkerOk(sh, i, w) && w.pc == Serving && w.nextToken < TOKENS
    ensures Kept(sh, i, ServeStep(sh, i, w))
  {
    hide SharedOk, Rely, Moves, ShardOk, WaitersOk, AllHeld, CarriesOk, Home, Token, Replay;
    var o := ServeStep(sh, i, w);
    if w.batch == [] {
      Walked(sh, i, w, o.w);
    } else {
      HeadBatched(sh, i, w.batch);
      if Home(sh.n, sh.reqs[w.batch[0]].op.key) == i {
        ServeLocalKeeps(sh, i, w);
      } else {
        ServeForwardKeeps(sh, i, w);
      }
    }
  }

  // --- Swapping out the ingress stack ---

  ghost predicate Drained(sh: Shared, sh': Shared, i: nat) {
    && sh'.n == sh.n && sh'.cap == sh.cap && sh'.log == sh.log && sh'.cmd == sh.cmd && sh'.reply == sh.reply
    && sh'.ingress == sh.ingress[i := []] && |sh'.reqs| == |sh.reqs|
    && forall x {:trigger sh'.reqs[x]} :: 0 <= x < |sh.reqs| ==>
         sh'.reqs[x] == if x in Stack(sh, i) then sh.reqs[x].(stage := Batched(i)) else sh.reqs[x]
  }

  lemma InStack(sh: Shared, i: nat, x: Id)
    requires IngressOk(sh, i) && x in Stack(sh, i)
    ensures At(sh, x, Queued(i))
  {
  }

  lemma DrainTransit(sh: Shared, sh': Shared, i: nat)
    requires TransitOk(sh) && Drained(sh, sh', i)
    ensures TransitOk(sh')
  {
    assert IngressOk(sh, i);
    forall a: nat, b: nat
      ensures CommandsOk(sh', a, b)
    {
      assert CommandsOk(sh, a, b);
      var q := Queue(sh.cmd, a, b);
      forall k | 0 <= k < |q| ensures CommandOk(sh', a, b, q[k]) { assert CommandOk(sh, a, b, q[k]); }
    }
    forall a: nat, b: nat
      ensures RepliesOk(sh', a, b)
    {
      assert RepliesOk(sh, a, b);
      var q := Queue(sh.reply, a, b);
      forall k | 0 <= k < |q| ensures ReplyOk(sh', a, b, q[k]) { assert ReplyOk(sh, a, b, q[k]); }
    }
    forall a: nat
      ensures IngressOk(sh', a)
    {
      assert IngressOk(sh, a);
    }
  }

  lemma DrainHistory(sh: Shared, sh': Shared, i: nat)
    requires SharedOk(sh) && Drained(sh, sh', i)
    ensures HistoryOk(sh') && AllFound(sh')
  {
    hide IsPow2, Route, Legal, InCommands, InReplies, CommandsOk, RepliesOk;
    assert IngressOk(sh, i);
    forall x | 0 <= x < |sh'.reqs|
      ensures RequestOk(sh', x) && FoundOk(sh', x)
    {
      assert RequestOk(sh, x) && FoundOk(sh, x);
      if x in Stack(sh, i) { InStack(sh, i, x); }
    }
    forall k | 0 <= k < |sh'.log|
      ensures EventOk(sh', k)
    {
      assert EventOk(sh, k);
      assert RequestOk(sh, sh.log[k].req);
    }
  }

  lemma DrainRely(sh: Shared, sh': Shared, i: nat)
    requires IngressOk(sh, i) && Drained(sh, sh', i)
    ensures OthersRely(sh, sh', i)
  {
    hide Replay, Home;
    forall k: nat | k != i
      ensures Rely(sh, sh', k)
    {
      forall x | 0 <= x < |sh'.reqs|
        ensures SameFor(sh, sh', k, x)
      {
        if x in Stack(sh, i) { InStack(sh, i, x); }
      }
    }
  }

  lemma DrainWorker(sh: Shared, sh': Shared, i: nat, w: Worker, w': Worker)
    requires IngressOk(sh, i) && WorkerOk(sh, i, w) && Drained(sh, sh', i) && w.pc == Draining
    requires w' == w.(batch := Stack(sh, i), pc := Serving)
    ensures WorkerOk(sh', i, w')
  {
    hide Replay, Home;
    forall x | 0 <= x < |sh'.reqs|
      ensures Waits(sh', i, w.waiters, x) && HeldOk(sh', i, w', x)
    {
      assert Waits(sh, i, w.waiters, x) && HeldOk(sh, i, w, x);
    }
    forall k
      ensures Look(w.shard, k) == if Home(sh'.n, k) == i then Look(Replay(sh'.log), k) else None
    {
      assert Home(sh.n, k) == Home(sh'.n, k) by { SameHome(sh, sh', k); }
    }
    DrainWaiters(sh, sh', i, w);
  }

  lemma SameHome(sh: Shared, sh': Shared, k: Key)
    requires sh'.n == sh.n
    ensures Home(sh.n, k) == Home(sh'.n, k)
  {
  }

  lemma DrainWaiters(sh: Shared, sh': Shared, i: nat, w: Worker)
    requires IngressOk(sh, i) && WaitersOk(sh, i, w.waiters, w.nextToken) && Drained(sh, sh', i)
    ensures WaitersOk(sh', i, w.waiters, w.nextToken)
  {
    forall x | 0 <= x < |sh'.reqs|
      ensures Waits(sh', i, w.waiters, x)
    {
      assert Waits(sh, i, w.waiters, x);
    }
    forall t | t in w.waiters
      ensures Ticket(sh'.reqs[w.waiters[t]].stage, i) == Some(t)
    {
      assert w.waiters[t] !in Stack(sh, i);
    }
  }

  lemma DrainMoves(sh: Shared, sh': Shared, i: nat)
    requires IngressOk(sh, i) && Drained(sh, sh', i) && Stack(sh, i) != []
    ensures Moves(sh, sh')
  {
    var r := Stack(sh, i)[0];
    assert At(sh, r, Queued(i));
    forall x | 0 <= x < |sh.reqs|
      ensures RequestForward(sh.reqs[x], sh'.reqs[x])
    {
      if x in Stack(sh, i) { InStack(sh, i, x); }
    }
    assert Advanced(sh, sh', r);
  }

  lemma DrainKeeps(sh: Shared, i: nat, w: Worker)
    requires SharedOk(sh) && WorkerOk(sh, i, w) && w.pc == Draining
    ensures Kept(sh, i, DrainStep(sh, i, w))
  {
    hide HistoryOk, CommandsOk, RepliesOk, IngressOk, AllFound, IsPow2, Rely, Moves, ShardOk, WaitersOk, BatchOk,
        AllHeld, CarriesOk;
    var o := DrainStep(sh, i, w);
    if Stack(sh, i) == [] {
      Walked(sh, i, w, o.w);
    } else {
      assert IngressOk(sh, i);
      assert Drained(sh, o.sh, i);
      DrainTransit(sh, o.sh, i);
      DrainHistory(sh, o.sh, i);
      DrainRely(sh, o.sh, i);
      DrainMoves(sh, o.sh, i);
      DrainWorker(sh, o.sh, i, w, o.w);
    }
  }

  // ---------------------------------------------------------------------------
  // Every step of every actor keeps the invariant
  // ---------------------------------------------------------------------------

  lemma WorkerKeeps(sh: Shared, i: nat, w: Worker)
    requires SharedOk(sh) && WorkerOk(sh, i, w) && w.nextToken < TOKENS
    ensures Kept(sh, i, WorkerStep(sh, i, w))
  {
    hide SharedOk, Rely, ShardOk, WaitersOk, BatchOk, AllHeld, CarriesOk, Kept;
    hide PopStep, AnswerStep, CollectStep, StoreStep, PublishStep, DrainStep, ServeStep, SendStep;
    match w.pc {
      case Popping(src) => PopKeeps(sh, i, w, src);
      case Answering => AnswerKeeps(sh, i, w, w.answering.value);
      case Collecting(src) => CollectKeeps(sh, i, w, src);
      case Storing(r, val, back) => StoreKeeps(sh, i, w, r, val, back);
      case Publishing(r, back) => PublishKeeps(sh, i, w, r, back);
      case Draining => DrainKeeps(sh, i, w);
      case Serving => ServeKeeps(sh, i, w);
      case Sending => SendKeeps(sh, i, w, w.sending.value);
    }
  }

  // A new request, at the top of the stack of the worker that accepts it.
  lemma SubmitKeeps(sh: Shared, op: Op, a: nat)
    requires SharedOk(sh) && a < sh.n && (op.Put? ==> a == Home(sh.n, op.key))
    ensures SharedOk(Submit(sh, op, a)) && forall i {:trigger Rely(sh, Submit(sh, op, a), i)} ::
        Rely(sh, Submit(sh, op, a), i)
  {
    hide IsPow2, Route, Legal, Replay, InCommands, InReplies;
    var sh' := Submit(sh, op, a);
    SubmitTransit(sh, op, a);
    forall x | 0 <= x < |sh'.reqs|
      ensures RequestOk(sh', x) && FoundOk(sh', x)
    {
      assert x < |sh.reqs| ==> RequestOk(sh, x) && FoundOk(sh, x);
    }
    forall k | 0 <= k < |sh'.log|
      ensures EventOk(sh', k)
    {
      assert EventOk(sh, k);
    }
    forall i: nat
      ensures Rely(sh, sh', i)
    {
      assert forall x :: 0 <= x < |sh'.reqs| ==> SameFor(sh, sh', i, x);
    }
  }

  lemma SubmitTransit(sh: Shared, op: Op, a: nat)
    requires TransitOk(sh)
    ensures TransitOk(Submit(sh, op, a))
  {
    var sh' := Submit(sh, op, a);
    forall i: nat, j: nat
      ensures CommandsOk(sh', i, j)
    {
      assert CommandsOk(sh, i, j);
      var q := Queue(sh.cmd, i, j);
      forall k | 0 <= k < |q| ensures CommandOk(sh', i, j, q[k]) { assert CommandOk(sh, i, j, q[k]); }
    }
    forall i: nat, j: nat
      ensures RepliesOk(sh', i, j)
    {
      assert RepliesOk(sh, i, j);
      var q := Queue(sh.reply, i, j);
      forall k | 0 <= k < |q| ensures ReplyOk(sh', i, j, q[k]) { assert ReplyOk(sh, i, j, q[k]); }
    }
    forall i: nat
      ensures IngressOk(sh', i)
    {
      assert IngressOk(sh, i);
      var b := Stack(sh, i);
      forall k | 0 <= k < |b| ensures At(sh', b[k], Queued(i)) { assert At(sh, b[k], Queued(i)); }
    }
  }

  lemma TakeKeeps(sh: Shared, r: Id)
    requires SharedOk(sh) && r < |sh.reqs| && sh.reqs[r].done && sh.reqs[r].result.None?
    ensures SharedOk(Take(sh, r)) && forall i {:trigger Rely(sh, Take(sh, r), i)} :: Rely(sh, Take(sh, r), i)
  {
    hide CommandsOk, RepliesOk, IngressOk, IsPow2, Route, Legal, Replay, InCommands, InReplies;
    var sh' := Take(sh, r);
    assert RequestOk(sh, r);
    MovedHistory(sh, sh', r);
    SameQueues(sh, sh', r);
    MovedFound(sh, sh', r);
    forall i: nat
      ensures Rely(sh, sh', i)
    {
      assert forall x :: 0 <= x < |sh'.reqs| ==> SameFor(sh, sh', i, x);
    }
  }

  lemma InitInv(s: State)
    requires Init(s)
    ensures Inv(s)
  {
    hide IsPow2, Route;
    forall a: nat, b: nat ensures CommandsOk(s.sh, a, b) && RepliesOk(s.sh, a, b) {}
    forall a: nat ensures IngressOk(s.sh, a) {}
    forall i | 0 <= i < |s.workers| ensures WorkerOk(s.sh, i, s.workers[i]) {}
  }

  lemma StepKeepsInv(s: State, step: Step, s': State)
    requires Inv(s) && Next(s, step, s')
    ensures Inv(s')
  {
    hide SharedOk, WorkerOk, Rely, WorkerStep, IsPow2, Route, Submit, Take;
    match step {
      case Work(i) =>
        assert WorkerOk(s.sh, i, s.workers[i]);
        WorkerKeeps(s.sh, i, s.workers[i]);
        forall k | 0 <= k < |s'.workers|
          ensures WorkerOk(s'.sh, k, s'.workers[k])
        {
          if k != i {
            assert WorkerOk(s.sh, k, s.workers[k]);
            assert Rely(s.sh, s'.sh, k);
            WorkerUndisturbed(s.sh, s'.sh, k, s.workers[k]);
          }
        }
      case _ =>
        ClientKeeps(s, step, s');
        forall k | 0 <= k < |s'.workers|
          ensures WorkerOk(s'.sh, k, s'.workers[k])
        {
          assert WorkerOk(s.sh, k, s.workers[k]);
          assert Rely(s.sh, s'.sh, k);
          WorkerUndisturbed(s.sh, s'.sh, k, s.workers[k]);
        }
    }
  }

  lemma ClientKeeps(s: State, step: Step, s': State)
    requires Inv(s) && Next(s, step, s') && !step.Work?
    ensures SharedOk(s'.sh) && s'.workers == s.workers && s'.sh.n == s.sh.n
    ensures forall i {:trigger Rely(s.sh, s'.sh, i)} :: Rely(s.sh, s'.sh, i)
  {
    hide WorkerOk, HistoryOk, TransitOk, AllFound, Route, Replay;
    match step {
      case ClientPut(k, v) => SubmitKeeps(s.sh, Put(k, v), Home(s.sh.n, k));
      case ClientGet(k) => SubmitKeeps(s.sh, Get(k), Home(s.sh.n, k));
      case ClientDraw => DrawKeeps(s.sh, s'.sh);
      case ClientGetRoundRobin(k, c) => RoundRobinKeeps(s.sh, k, c);
      case ClientReturn(r) => TakeKeeps(s.sh, r);
    }
  }

  lemma DrawKeeps(sh: Shared, sh': Shared)
    requires SharedOk(sh) && sh' == sh.(rr := sh'.rr, drawn := sh'.drawn)
    ensures SharedOk(sh') && forall i {:trigger Rely(sh, sh', i)} :: Rely(sh, sh', i)
  {
    hide IsPow2, Route, Legal, Replay, InCommands, InReplies;
    SameButCounter(sh, sh');
    forall i: nat ensures Rely(sh, sh', i) {
      forall x | 0 <= x < |sh'.reqs| ensures SameFor(sh, sh', i, x) {}
    }
  }

  // Whatever other clients have counted or pushed in between.
  lemma RoundRobinKeeps(sh: Shared, k: Key, c: nat)
    requires SharedOk(sh) && sh.n > 0
    ensures
      var sh' := Submit(sh, Get(k), c % sh.n).(drawn := sh.drawn - multiset{c});
      SharedOk(sh') && forall i {:trigger Rely(sh, sh', i)} :: Rely(sh, sh', i)
  {
    hide IsPow2, Route, Legal, Replay, InCommands, InReplies;
    var mid := Submit(sh, Get(k), c % sh.n);
    var sh' := mid.(drawn := sh.drawn - multiset{c});
    SubmitKeeps(sh, Get(k), c % sh.n);
    SameButCounter(mid, sh');
    forall i: nat ensures Rely(sh, sh', i) {
      assert Rely(sh, mid, i);
      forall x | 0 <= x < |sh'.reqs| ensures SameFor(sh, sh', i, x) { assert SameFor(sh, mid, i, x); }
    }
  }

  lemma SameButCounter(sh: Shared, sh': Shared)
    requires SharedOk(sh) && sh' == sh.(rr := sh'.rr, drawn := sh'.drawn)
    ensures SharedOk(sh')
  {
    hide IsPow2, Route, Legal, InCommands, InReplies;
    forall x | 0 <= x < |sh'.reqs| ensures RequestOk(sh', x) && FoundOk(sh', x) {
      assert RequestOk(sh, x) && FoundOk(sh, x);
    }
    forall k | 0 <= k < |sh'.log| ensures EventOk(sh', k) { assert EventOk(sh, k); }
    forall i: nat, j: nat ensures CommandsOk(sh', i, j) { assert CommandsOk(sh, i, j); }
    forall i: nat, j: nat ensures RepliesOk(sh', i, j) { assert RepliesOk(sh, i, j); }
    forall i: nat ensures IngressOk(sh', i) {
      assert IngressOk(sh, i);
      var b := Stack(sh, i);
      forall k | 0 <= k < |b| ensures At(sh', b[k], Queued(i)) { assert At(sh, b[k], Queued(i)); }
    }
  }
}
