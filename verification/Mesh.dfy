/** The closed Put workload of the mesh: every worker submits its items, routing
  * each to the owner of its key over bounded queues, and stops only when every
  * command of every worker has been applied.
  *
  * One step is one atomic operation on what the workers share: a counter, or
  * one push or pop.  A worker's code is deterministic, so its step is a function;
  * the schedule is arbitrary.
  *
  * History variables that no step reads: the stage of each put, which put wrote
  * each entry (`writer`), the sets of workers that have announced or exited, and the
  * name `id` of an entry.
  */
module Mesh {
  import opened Keys
  import opened Bits
  import opened Matrix

  type Value = seq<Byte>
  type Id = nat                 // a put; a worker's puts are numbered in its order

  datatype Stage = Waiting | Held | Queued | Popped | Applied

  datatype PutRecord = PutRecord(src: nat, key: Key, val: Value, stage: Stage)

  datatype Entry = Entry(key: Key, val: Value, id: Id)

  datatype Shared = Shared(
    n: nat, cap: nat, cmd: map<Edge, seq<Entry>>, sent: nat, applied: nat, phase1: nat,
    puts: seq<PutRecord>, announced: set<nat>, exited: set<nat>)

  // Where `pump` was called from.
  datatype Context = Retry(e: Entry) | AfterPut | Quiesce | Last

  datatype Pc =
    | NextItem
    | Hold(e: Entry)
    | Pop(src: nat, ctx: Context)
    | Count(id: Id, src: nat, ctx: Context)
    | LoadDone
    | LoadSent(allDone: bool)
    | LoadApplied(allDone: bool, sent: nat)
    | Exited

  datatype Worker = Worker(shard: map<Key, Value>, writer: map<Key, Id>, items: seq<Entry>, pc: Pc)

  datatype State = State(sh: Shared, workers: seq<Worker>)

  datatype Out = Out(sh: Shared, w: Worker)

  // ---------------------------------------------------------------------------
  // Steps
  // ---------------------------------------------------------------------------

  function SetStage(sh: Shared, id: Id, st: Stage): Shared {
    if id < |sh.puts| then sh.(puts := sh.puts[id := sh.puts[id].(stage := st)]) else sh
  }

  function Insert(w: Worker, e: Entry): Worker {
    w.(shard := w.shard[e.key := e.val], writer := w.writer[e.key := e.id])
  }

  // Phase 1: the next item of the workload, or the announcement that there is none.
  function NextStep(sh: Shared, i: nat, w: Worker): Out {
    if w.items == [] then
      Out(sh.(phase1 := sh.phase1 + 1, announced := sh.announced + {i}), w.(pc := Pop(0, Quiesce)))
    else
      Out(SetStage(sh.(sent := sh.sent + 1), w.items[0].id, Held), w.(items := w.items[1..], pc := Hold(w.items[0])))
  }

  // `put`: apply locally, or push to the owner and pump when its queue is full.
  function HoldStep(sh: Shared, i: nat, w: Worker, e: Entry): Out {
    var o := Home(sh.n, e.key);
    if o == i then
      Out(SetStage(sh.(applied := sh.applied + 1), e.id, Applied), Insert(w, e).(pc := Pop(0, AfterPut)))
    else
      var q := Queue(sh.cmd, i, o);
      if |q| < sh.cap then
        Out(SetStage(sh.(cmd := sh.cmd[Edge(i, o) := q + [e]]), e.id, Queued), w.(pc := Pop(0, AfterPut)))
      else Out(sh, w.(pc := Pop(0, Retry(e))))
  }

  function Return(ctx: Context): Pc {
    match ctx
    case Retry(e) => Hold(e)
    case AfterPut => NextItem
    case Quiesce => LoadDone
    case Last => Exited
  }

  // `pump`: one pop of inbox `src`.
  function PopStep(sh: Shared, i: nat, w: Worker, src: nat, ctx: Context): Out {
    if src >= sh.n then
      Out(if ctx.Last? then sh.(exited := sh.exited + {i}) else sh, w.(pc := Return(ctx)))
    else
      var q := Queue(sh.cmd, src, i);
      if q == [] then Out(sh, w.(pc := Pop(src + 1, ctx)))
      else
        Out(SetStage(sh.(cmd := sh.cmd[Edge(src, i) := q[1..]]), q[0].id, Popped),
            Insert(w, q[0]).(pc := Count(q[0].id, src, ctx)))
  }

  function WorkerStep(sh: Shared, i: nat, w: Worker): Out {
    match w.pc
    case NextItem => NextStep(sh, i, w)
    case Hold(e) => HoldStep(sh, i, w, e)
    case Pop(src, ctx) => PopStep(sh, i, w, src, ctx)
    case Count(id, src, ctx) =>
      Out(SetStage(sh.(applied := sh.applied + 1), id, Applied), w.(pc := Pop(src, ctx)))
    case LoadDone => Out(sh, w.(pc := LoadSent(sh.phase1 == sh.n)))
    case LoadSent(d) => Out(sh, w.(pc := LoadApplied(d, sh.sent)))
    case LoadApplied(d, s) => Out(sh, w.(pc := Pop(0, if d && s == sh.applied then Last else Quiesce)))
    case Exited => Out(sh, w)
  }

  predicate Next(s: State, i: nat, s': State) {
    i < |s.workers| && var o := WorkerStep(s.sh, i, s.workers[i]); s' == State(o.sh, s.workers[i := o.w])
  }

  // Any workloads: worker `i` starts with its own puts, in order.
  ghost predicate Init(s: State) {
    && IsPow2(s.sh.n) && s.sh.cap > 0 && |s.workers| == s.sh.n
    && s.sh == Shared(s.sh.n, s.sh.cap, map[], 0, 0, 0, s.sh.puts, {}, {})
    && (forall id :: 0 <= id < |s.sh.puts| ==> s.sh.puts[id].stage == Waiting && s.sh.puts[id].src < s.sh.n)
    && (forall i :: 0 <= i < |s.workers| ==>
          s.workers[i] == Worker(map[], map[], s.workers[i].items, NextItem) && Lists(s.sh, i, s.workers[i].items))
  }

  predicate Names(sh: Shared, e: Entry, st: Stage) {
    e.id < |sh.puts| && sh.puts[e.id].stage == st && sh.puts[e.id].key == e.key && sh.puts[e.id].val == e.val
  }

  predicate Rising(q: seq<Entry>) { forall a, b :: 0 <= a < b < |q| ==> q[a].id < q[b].id }

  predicate In(q: seq<Entry>, id: Id) { exists k :: 0 <= k < |q| && q[k].id == id }

  // `items` is exactly what worker `i` has not submitted yet.
  ghost predicate Lists(sh: Shared, i: nat, items: seq<Entry>) {
    && Rising(items)
    && (forall k :: 0 <= k < |items| ==> Names(sh, items[k], Waiting) && sh.puts[items[k].id].src == i)
    && (forall id {:trigger In(items, id)} ::
          0 <= id < |sh.puts| && sh.puts[id].src == i && sh.puts[id].stage == Waiting ==> In(items, id))
  }

  // ---------------------------------------------------------------------------
  // Counting puts
  // ---------------------------------------------------------------------------

  function Sum(puts: seq<PutRecord>, f: Stage -> nat): nat {
    if puts == [] then 0 else Sum(puts[..|puts| - 1], f) + f(puts[|puts| - 1].stage)
  }

  lemma {:induction false} SumUpdate(puts: seq<PutRecord>, id: Id, st: Stage, f: Stage -> nat)
    requires id < |puts|
    ensures Sum(puts[id := puts[id].(stage := st)], f) + f(puts[id].stage) == Sum(puts, f) + f(st)
  {
    var puts' := puts[id := puts[id].(stage := st)];
    var n := |puts| - 1;
    if id == n {
      assert puts'[..n] == puts[..n];
    } else {
      assert puts'[..n] == puts[..n][id := puts[id].(stage := st)];
      SumUpdate(puts[..n], id, st, f);
    }
  }

  // If `f` is below `g` everywhere then so are the sums, and equal sums mean equal terms.
  lemma {:induction false} SumCompare(puts: seq<PutRecord>, f: Stage -> nat, g: Stage -> nat)
    requires forall st :: f(st) <= g(st)
    ensures Sum(puts, f) <= Sum(puts, g)
    ensures Sum(puts, f) == Sum(puts, g) ==> forall id :: 0 <= id < |puts| ==> f(puts[id].stage) == g(puts[id].stage)
    ensures (forall id :: 0 <= id < |puts| ==> f(puts[id].stage) == g(puts[id].stage)) ==> Sum(puts, f) == Sum(puts, g)
  {
    if puts != [] {
      var n := |puts| - 1;
      SumCompare(puts[..n], f, g);
      assert forall id :: 0 <= id < n ==> puts[..n][id] == puts[id];
    }
  }

  function WasSent(st: Stage): nat { if st.Waiting? then 0 else 1 }
  function WasApplied(st: Stage): nat { if st.Applied? then 1 else 0 }

  // ---------------------------------------------------------------------------
  // Invariants
  // ---------------------------------------------------------------------------

  predicate Inserted(st: Stage) { st.Popped? || st.Applied? }

  function Level(st: Stage): nat {
    match st
    case Waiting => 0
    case Held => 1
    case Queued => 2
    case Popped => 3
    case Applied => 4
  }

  predicate PutOk(sh: Shared, id: Id)
    requires id < |sh.puts|
  {
    var p := sh.puts[id];
    && p.src < sh.n && (Home(sh.n, p.key) == p.src ==> !p.stage.Queued? && !p.stage.Popped?)
    && (p.stage.Queued? ==> In(Queue(sh.cmd, p.src, Home(sh.n, p.key)), id))
  }

  // Two puts of one worker to one owner never overtake each other.
  predicate InOrder(sh: Shared, a: Id, b: Id)
    requires a < |sh.puts| && b < |sh.puts|
  {
    a < b && sh.puts[a].src == sh.puts[b].src && Home(sh.n, sh.puts[a].key) == Home(sh.n, sh.puts[b].key) ==>
      Level(sh.puts[a].stage) >= Level(sh.puts[b].stage)
  }

  ghost predicate QueueOk(sh: Shared, i: nat, j: nat) {
    var q := Queue(sh.cmd, i, j);
    && |q| <= sh.cap && Rising(q)
    && forall k :: 0 <= k < |q| ==>
         Names(sh, q[k], Queued) && sh.puts[q[k].id].src == i && Home(sh.n, q[k].key) == j
  }

  predicate AllAnnounced(sh: Shared) { |sh.announced| == sh.n }

  ghost predicate PutsOk(sh: Shared) {
    && (forall id {:trigger PutOk(sh, id)} :: 0 <= id < |sh.puts| ==> PutOk(sh, id))
    && (forall a, b {:trigger InOrder(sh, a, b)} :: 0 <= a < |sh.puts| && 0 <= b < |sh.puts| ==> InOrder(sh, a, b))
    && (forall i, j {:trigger QueueOk(sh, i, j)} :: QueueOk(sh, i, j))
  }

  ghost predicate CountsOk(sh: Shared) {
    && sh.sent == Sum(sh.puts, WasSent) && sh.applied == Sum(sh.puts, WasApplied)
    && sh.phase1 == |sh.announced|
    && (forall i :: i in sh.announced ==> i < sh.n) && (forall i :: i in sh.exited ==> i < sh.n)
  }

  ghost predicate SharedOk(sh: Shared) {
    IsPow2(sh.n) && sh.cap > 0 && PutsOk(sh) && CountsOk(sh)
  }

  predicate Holds(w: Worker, e: Entry) {
    w.pc == Hold(e) || ((w.pc.Pop? || w.pc.Count?) && w.pc.ctx == Retry(e))
  }

  predicate Announced(pc: Pc) {
    pc.LoadDone? || pc.LoadSent? || pc.LoadApplied? || pc.Exited? ||
    ((pc.Pop? || pc.Count?) && (pc.ctx.Quiesce? || pc.ctx.Last?))
  }

  predicate Settled(pc: Pc) { pc.Exited? || ((pc.Pop? || pc.Count?) && pc.ctx.Last?) }

  // What a worker has loaded while quiescing.
  predicate LoadsOk(sh: Shared, i: nat, w: Worker) {
    && (i in sh.announced <==> Announced(w.pc)) && (Announced(w.pc) ==> w.items == [])
    && (i in sh.exited <==> w.pc.Exited?)
    && (w.pc.Pop? || w.pc.Count? ==> w.pc.src <= sh.n)
    && (w.pc.LoadSent? && w.pc.allDone ==> AllAnnounced(sh))
    && (w.pc.LoadApplied? && w.pc.allDone ==> AllAnnounced(sh) && w.pc.sent == sh.sent)
    && (Settled(w.pc) ==> AllAnnounced(sh) && sh.sent == sh.applied)
  }

  predicate HeldOk(sh: Shared, i: nat, w: Worker, id: Id)
    requires id < |sh.puts|
  {
    var p := sh.puts[id];
    && (p.src == i && p.stage.Held? ==> Holds(w, Entry(p.key, p.val, id)))
    && (Home(sh.n, p.key) == i && p.stage.Popped? ==> w.pc.Count? && w.pc.id == id)
  }

  ghost predicate CarriesOk(sh: Shared, i: nat, w: Worker) {
    && (forall e {:trigger Holds(w, e)} :: Holds(w, e) ==> Names(sh, e, Held) && sh.puts[e.id].src == i)
    && (w.pc.Count? ==>
          w.pc.id < |sh.puts| && sh.puts[w.pc.id].stage == Popped && Home(sh.n, sh.puts[w.pc.id].key) == i)
    && (forall id {:trigger HeldOk(sh, i, w, id)} :: 0 <= id < |sh.puts| ==> HeldOk(sh, i, w, id))
  }

  // The shard: exactly the inserted keys of this owner, each as last written, and
  // the last write is the latest put of its worker for that key so far.
  predicate EntryOk(sh: Shared, i: nat, w: Worker, k: Key)
    requires k in w.writer && k in w.shard
  {
    var id := w.writer[k];
    && id < |sh.puts| && Inserted(sh.puts[id].stage) && sh.puts[id].key == k && sh.puts[id].val == w.shard[k]
    && Home(sh.n, k) == i
  }

  predicate WrittenOk(sh: Shared, i: nat, w: Worker, id: Id)
    requires id < |sh.puts|
  {
    var p := sh.puts[id];
    Inserted(p.stage) && Home(sh.n, p.key) == i ==>
      && p.key in w.writer && w.writer[p.key] < |sh.puts|
      && (sh.puts[w.writer[p.key]].src == p.src ==> id <= w.writer[p.key])
  }

  ghost predicate ShardOk(sh: Shared, i: nat, w: Worker) {
    && w.shard.Keys == w.writer.Keys
    && (forall k {:trigger w.writer[k]} :: k in w.writer ==> EntryOk(sh, i, w, k))
    && (forall id {:trigger WrittenOk(sh, i, w, id)} :: 0 <= id < |sh.puts| ==> WrittenOk(sh, i, w, id))
  }

  ghost predicate WorkerOk(sh: Shared, i: nat, w: Worker) {
    i < sh.n && Lists(sh, i, w.items) && LoadsOk(sh, i, w) && CarriesOk(sh, i, w) && ShardOk(sh, i, w)
  }

  ghost predicate Inv(s: State) {
    && SharedOk(s.sh) && |s.workers| == s.sh.n
    && forall i {:trigger WorkerOk(s.sh, i, s.workers[i])} :: 0 <= i < |s.workers| ==> WorkerOk(s.sh, i, s.workers[i])
  }

  // ---------------------------------------------------------------------------
  // What a step leaves alone for worker `i`
  // ---------------------------------------------------------------------------

  predicate SamePut(p: PutRecord, p': PutRecord) { p' == p.(stage := p'.stage) }

  predicate SameFor(n: nat, p: PutRecord, p': PutRecord, i: nat) {
    && SamePut(p, p')
    && (p.src == i ==> (p.stage.Waiting? <==> p'.stage.Waiting?) && (p.stage.Held? <==> p'.stage.Held?))
    && (Home(n, p.key) == i ==> (p.stage.Popped? <==> p'.stage.Popped?) && (p.stage.Applied? <==> p'.stage.Applied?))
  }

  ghost predicate Rely(sh: Shared, sh': Shared, i: nat) {
    && sh'.n == sh.n && sh'.cap == sh.cap && |sh'.puts| == |sh.puts|
    && (forall id {:trigger sh'.puts[id]} :: 0 <= id < |sh.puts| ==> SameFor(sh.n, sh.puts[id], sh'.puts[id], i))
    && (i in sh.announced <==> i in sh'.announced) && (i in sh.exited <==> i in sh'.exited)
    && (AllAnnounced(sh) ==> AllAnnounced(sh') && sh'.sent == sh.sent)
    && (AllAnnounced(sh) && sh.sent == sh.applied ==> sh'.applied == sh.applied)
  }

  lemma WorkerUndisturbed(sh: Shared, sh': Shared, i: nat, w: Worker)
    requires WorkerOk(sh, i, w) && Rely(sh, sh', i)
    ensures WorkerOk(sh', i, w)
  {
    hide Home, Rising, In;
    forall id | 0 <= id < |sh'.puts|
      ensures HeldOk(sh', i, w, id) && WrittenOk(sh', i, w, id)
    {
      assert HeldOk(sh, i, w, id) && WrittenOk(sh, i, w, id);
      assert SameFor(sh.n, sh.puts[id], sh'.puts[id], i);
      if Inserted(sh.puts[id].stage) && Home(sh.n, sh.puts[id].key) == i {
        var x := w.writer[sh.puts[id].key];
        assert SameFor(sh.n, sh.puts[x], sh'.puts[x], i);
      }
    }
    forall k | k in w.writer
      ensures EntryOk(sh', i, w, k)
    {
      assert EntryOk(sh, i, w, k);
      assert SameFor(sh.n, sh.puts[w.writer[k]], sh'.puts[w.writer[k]], i);
    }
    UndisturbedItems(sh, sh', i, w.items);
    forall e | Holds(w, e)
      ensures Names(sh', e, Held) && sh'.puts[e.id].src == i
    {
      assert SameFor(sh.n, sh.puts[e.id], sh'.puts[e.id], i);
    }
  }

  lemma UndisturbedItems(sh: Shared, sh': Shared, i: nat, items: seq<Entry>)
    requires Lists(sh, i, items) && Rely(sh, sh', i)
    ensures Lists(sh', i, items)
  {
    hide Home, Rising, In;
    forall k | 0 <= k < |items|
      ensures Names(sh', items[k], Waiting) && sh'.puts[items[k].id].src == i
    {
      var id := items[k].id;
      assert SameFor(sh.n, sh.puts[id], sh'.puts[id], i);
    }
    forall id | 0 <= id < |sh'.puts| && sh'.puts[id].src == i && sh'.puts[id].stage == Waiting
      ensures In(items, id)
    {
      assert SameFor(sh.n, sh.puts[id], sh'.puts[id], i);
    }
  }

  // ---------------------------------------------------------------------------
  // Moving one put
  // ---------------------------------------------------------------------------

  ghost predicate Moved(sh: Shared, sh': Shared, id: Id, st: Stage) {
    && sh'.n == sh.n && sh'.cap == sh.cap && id < |sh.puts|
    && sh'.puts == sh.puts[id := sh.puts[id].(stage := st)]
    && Level(st) > Level(sh.puts[id].stage)
  }

  // Every earlier put of the same worker to the same owner is at least that far.
  ghost predicate Ahead(sh: Shared, id: Id, st: Stage) {
    id < |sh.puts| &&
    forall a {:trigger sh.puts[a]} ::
      (&& 0 <= a < id && sh.puts[a].src == sh.puts[id].src
       && Home(sh.n, sh.puts[a].key) == Home(sh.n, sh.puts[id].key)) ==>
        Level(sh.puts[a].stage) >= Level(st)
  }

  // No later put of that worker to that owner is beyond `level`.
  ghost predicate Latest(sh: Shared, src: nat, j: nat, id: Id, level: nat) {
    forall x {:trigger sh.puts[x]} :: 0 <= x < |sh.puts| ==>
      sh.puts[x].src == src && Home(sh.n, sh.puts[x].key) == j && Level(sh.puts[x].stage) > level ==> x <= id
  }

  lemma MovedOrder(sh: Shared, sh': Shared, id: Id, st: Stage, a: Id, b: Id)
    requires Moved(sh, sh', id, st) && Ahead(sh, id, st) && a < |sh.puts| && b < |sh.puts| && InOrder(sh, a, b)
    ensures InOrder(sh', a, b)
  {
    hide Home;
  }

  lemma MovedQueue(sh: Shared, sh': Shared, id: Id, st: Stage, i: nat, j: nat)
    requires Moved(sh, sh', id, st) && QueueOk(sh, i, j) && Queue(sh'.cmd, i, j) == Queue(sh.cmd, i, j)
    requires sh.puts[id].stage == Queued ==> sh.puts[id].src != i || Home(sh.n, sh.puts[id].key) != j
    ensures QueueOk(sh', i, j)
  {
    hide Home, Rising;
    var q := Queue(sh.cmd, i, j);
    forall k | 0 <= k < |q|
      ensures Names(sh', q[k], Queued) && sh'.puts[q[k].id].src == i && Home(sh'.n, q[k].key) == j
    {
      assert Names(sh, q[k], Queued);
    }
  }

  // The queues stay and the put leaves no queue.
  lemma MovedPuts(sh: Shared, sh': Shared, id: Id, st: Stage)
    requires PutsOk(sh) && Moved(sh, sh', id, st) && Ahead(sh, id, st) && sh'.cmd == sh.cmd
    requires !sh.puts[id].stage.Queued? && !st.Queued? && !st.Popped?
    ensures PutsOk(sh')
  {
    hide Home, In, QueueOk;
    forall x | 0 <= x < |sh'.puts|
      ensures PutOk(sh', x)
    {
      assert PutOk(sh, x);
      assert forall i, j :: Queue(sh'.cmd, i, j) == Queue(sh.cmd, i, j);
    }
    forall a, b | 0 <= a < |sh'.puts| && 0 <= b < |sh'.puts|
      ensures InOrder(sh', a, b)
    {
      assert InOrder(sh, a, b);
      MovedOrder(sh, sh', id, st, a, b);
    }
    forall i: nat, j: nat
      ensures QueueOk(sh', i, j)
    {
      assert QueueOk(sh, i, j);
      MovedQueue(sh, sh', id, st, i, j);
    }
  }

  lemma Pushed(q: seq<Entry>, e: Entry)
    ensures In(q + [e], e.id) && forall x :: In(q, x) ==> In(q + [e], x)
  {
    assert (q + [e])[|q|] == e;
    forall x | In(q, x)
      ensures In(q + [e], x)
    {
      var k :| 0 <= k < |q| && q[k].id == x;
      assert (q + [e])[k] == q[k];
    }
  }

  lemma Shifted(q: seq<Entry>)
    requires q != []
    ensures forall x :: In(q, x) && x != q[0].id ==> In(q[1..], x)
  {
    forall x | In(q, x) && x != q[0].id
      ensures In(q[1..], x)
    {
      var k :| 0 <= k < |q| && q[k].id == x;
      assert q[1..][k - 1] == q[k];
    }
  }

  // --- Remaining work ---

  function Weight(st: Stage): nat { 4 - Level(st) }

  function Remaining(sh: Shared): int {
    Sum(sh.puts, Weight) + (sh.n - |sh.announced|) + (sh.n - |sh.exited|)
  }

  lemma MovedCounts(sh: Shared, sh': Shared, id: Id, st: Stage)
    requires Moved(sh, sh', id, st) && CountsOk(sh)
    requires sh'.announced == sh.announced && sh'.exited == sh.exited && sh'.phase1 == sh.phase1
    requires sh'.sent == sh.sent + (if sh.puts[id].stage.Waiting? then 1 else 0)
    requires sh'.applied == sh.applied + (if st.Applied? then 1 else 0)
    ensures CountsOk(sh') && Remaining(sh') < Remaining(sh)
  {
    SumUpdate(sh.puts, id, st, WasSent);
    SumUpdate(sh.puts, id, st, WasApplied);
    SumUpdate(sh.puts, id, st, Weight);
  }

  lemma AppliedAtMostSent(sh: Shared)
    requires CountsOk(sh)
    ensures sh.applied <= sh.sent
    ensures sh.applied == sh.sent ==>
      forall id :: 0 <= id < |sh.puts| ==> sh.puts[id].stage.Waiting? || sh.puts[id].stage.Applied?
  {
    SumCompare(sh.puts, WasApplied, WasSent);
    if sh.applied == sh.sent {
      forall id | 0 <= id < |sh.puts|
        ensures sh.puts[id].stage.Waiting? || sh.puts[id].stage.Applied?
      {
        assert WasApplied(sh.puts[id].stage) == WasSent(sh.puts[id].stage);
      }
    }
  }

  lemma {:induction false} SetBound(s: set<nat>, n: nat)
    requires forall x :: x in s ==> x < n
    ensures |s| <= n
    ensures |s| == n ==> forall x: nat :: x < n ==> x in s
  {
    if n > 0 {
      var t := s - {n - 1};
      SetBound(t, n - 1);
      assert n - 1 in s ==> s == t + {n - 1};
      assert n - 1 !in s ==> s == t;
    }
  }

  ghost predicate OthersRely(sh: Shared, sh': Shared, i: nat) {
    forall k {:trigger Rely(sh, sh', k)} :: k != i ==> Rely(sh, sh', k)
  }

  // The stage changes in a way only worker `i` looks at.
  lemma LocalRely(sh: Shared, sh': Shared, id: Id, st: Stage, i: nat)
    requires Moved(sh, sh', id, st) && CountsOk(sh) && CountsOk(sh')
    requires var p := sh.puts[id];
      && (p.stage.Waiting? || p.stage.Held? ==> p.src == i)
      && (Inserted(p.stage) || Inserted(st) ==> Home(sh.n, p.key) == i)
    requires sh'.announced == sh.announced && sh'.exited == sh.exited && sh.applied <= sh'.applied
    requires sh'.sent == sh.sent || (i !in sh.announced && i < sh.n)
    ensures OthersRely(sh, sh', i)
  {
    hide Home, Sum;
    AppliedAtMostSent(sh');
    if AllAnnounced(sh) { SetBound(sh.announced, sh.n); }
  }

  ghost predicate Kept(sh: Shared, i: nat, o: Out) {
    && SharedOk(o.sh) && WorkerOk(o.sh, i, o.w) && OthersRely(sh, o.sh, i)
    && o.sh.n == sh.n && (o.sh == sh || Remaining(o.sh) < Remaining(sh))
  }

  lemma NothingMoved(sh: Shared, i: nat)
    ensures OthersRely(sh, sh, i)
  {
  }

  // ---------------------------------------------------------------------------
  // Each step keeps the invariant
  // ---------------------------------------------------------------------------

  // --- Taking an item ---

  lemma TakeFirst(sh: Shared, i: nat, items: seq<Entry>)
    requires Lists(sh, i, items) && items != []
    ensures Names(sh, items[0], Waiting) && sh.puts[items[0].id].src == i && Ahead(sh, items[0].id, Held)
  {
    hide Home;
    var id := items[0].id;
    forall a | 0 <= a < |sh.puts| && sh.puts[a].src == i && sh.puts[a].stage == Waiting
      ensures id <= a
    {
      assert In(items, a);
      var k :| 0 <= k < |items| && items[k].id == a;
    }
  }

  lemma TakeItems(sh: Shared, sh': Shared, i: nat, items: seq<Entry>)
    requires Lists(sh, i, items) && items != [] && Moved(sh, sh', items[0].id, Held)
    ensures Lists(sh', i, items[1..])
  {
    var rest := items[1..];
    forall k | 0 <= k < |rest|
      ensures Names(sh', rest[k], Waiting) && sh'.puts[rest[k].id].src == i
    {
      assert Names(sh, items[k + 1], Waiting);
    }
    Shifted(items);
    forall id | 0 <= id < |sh'.puts| && sh'.puts[id].src == i && sh'.puts[id].stage == Waiting
      ensures In(rest, id)
    {
      assert In(items, id);
    }
  }

  lemma TakeKeeps(sh: Shared, i: nat, w: Worker)
    requires SharedOk(sh) && WorkerOk(sh, i, w) && w.pc == NextItem && w.items != []
    ensures Kept(sh, i, NextStep(sh, i, w))
  {
    hide Home, IsPow2, PutsOk, Lists, CountsOk, Rely, Remaining, Rising, In, ShardOk;
    var o := NextStep(sh, i, w);
    TakeFirst(sh, i, w.items);
    var e := w.items[0];
    MovedPuts(sh, o.sh, e.id, Held);
    MovedCounts(sh, o.sh, e.id, Held);
    LocalRely(sh, o.sh, e.id, Held, i);
    TakeItems(sh, o.sh, i, w.items);
    ShardStays(sh, o.sh, i, w, o.w, e.id, Held);
    forall id | 0 <= id < |o.sh.puts|
      ensures HeldOk(o.sh, i, o.w, id)
    {
      assert HeldOk(sh, i, w, id);
    }
  }

  lemma ShardStays(sh: Shared, sh': Shared, i: nat, w: Worker, w': Worker, id: Id, st: Stage)
    requires ShardOk(sh, i, w) && Moved(sh, sh', id, st) && Inserted(sh.puts[id].stage) == Inserted(st)
    requires w'.shard == w.shard && w'.writer == w.writer
    ensures ShardOk(sh', i, w')
  {
    hide Home;
    forall x | 0 <= x < |sh'.puts|
      ensures WrittenOk(sh', i, w', x)
    {
      assert WrittenOk(sh, i, w, x);
    }
    forall k | k in w'.writer
      ensures EntryOk(sh', i, w', k)
    {
      assert EntryOk(sh, i, w, k);
    }
  }

  // --- Announcing ---

  lemma AnnounceKeeps(sh: Shared, i: nat, w: Worker)
    requires SharedOk(sh) && WorkerOk(sh, i, w) && w.pc == NextItem && w.items == []
    ensures Kept(sh, i, NextStep(sh, i, w))
  {
    hide Home, IsPow2, Rising, In, Sum;
    var o := NextStep(sh, i, w);
    SetBound(sh.announced, sh.n);
    SameQueues(sh, o.sh);
    SameWorker(sh, o.sh, i, w, o.w);
    AppliedAtMostSent(sh);
  }

  // Counters and history sets change, the puts and queues do not.
  lemma SameQueues(sh: Shared, sh': Shared)
    requires PutsOk(sh) && sh'.n == sh.n && sh'.cap == sh.cap && sh'.cmd == sh.cmd && sh'.puts == sh.puts
    ensures PutsOk(sh')
  {
    hide Home, In, Rising;
    forall x | 0 <= x < |sh'.puts| ensures PutOk(sh', x) {
      assert PutOk(sh, x);
      assert forall i, j :: Queue(sh'.cmd, i, j) == Queue(sh.cmd, i, j);
    }
    forall a, b | 0 <= a < |sh'.puts| && 0 <= b < |sh'.puts| ensures InOrder(sh', a, b) { assert InOrder(sh, a, b); }
    forall i: nat, j: nat ensures QueueOk(sh', i, j) {
      assert QueueOk(sh, i, j);
      var q := Queue(sh.cmd, i, j);
      forall k | 0 <= k < |q| ensures Names(sh', q[k], Queued) { assert Names(sh, q[k], Queued); }
    }
  }

  lemma SameWorker(sh: Shared, sh': Shared, i: nat, w: Worker, w': Worker)
    requires WorkerOk(sh, i, w) && sh'.n == sh.n && sh'.puts == sh.puts && LoadsOk(sh', i, w')
    requires w' == w.(pc := w'.pc) && !w.pc.Count? && !w'.pc.Count?
    requires forall e {:trigger Holds(w', e)} :: Holds(w', e) <==> Holds(w, e)
    ensures WorkerOk(sh', i, w')
  {
    hide Home, Rising, In, LoadsOk;
    forall id | 0 <= id < |sh'.puts|
      ensures HeldOk(sh', i, w', id) && WrittenOk(sh', i, w', id)
    {
      assert HeldOk(sh, i, w, id) && WrittenOk(sh, i, w, id);
    }
    forall k | k in w'.writer
      ensures EntryOk(sh', i, w', k)
    {
      assert EntryOk(sh, i, w, k);
    }
    forall e | Holds(w', e)
      ensures Names(sh', e, Held) && sh'.puts[e.id].src == i
    {
      assert Holds(w, e);
    }
    SameItems(sh, sh', i, w.items);
  }

  lemma SameItems(sh: Shared, sh': Shared, i: nat, items: seq<Entry>)
    requires Lists(sh, i, items) && sh'.puts == sh.puts
    ensures Lists(sh', i, items)
  {
    hide In, Rising;
    forall k | 0 <= k < |items| ensures Names(sh', items[k], Waiting) { assert Names(sh, items[k], Waiting); }
  }

  // The worker moves to another program point and nothing shared changes.
  lemma Walked(sh: Shared, i: nat, w: Worker, w': Worker)
    requires SharedOk(sh) && WorkerOk(sh, i, w) && LoadsOk(sh, i, w')
    requires w' == w.(pc := w'.pc) && !w.pc.Count? && !w'.pc.Count?
    requires forall e {:trigger Holds(w', e)} :: Holds(w', e) <==> Holds(w, e)
    ensures Kept(sh, i, Out(sh, w'))
  {
    hide SharedOk, WorkerOk, LoadsOk, Rely, Remaining, Holds;
    SameWorker(sh, sh, i, w, w');
    NothingMoved(sh, i);
  }

  // --- Placing the held put ---

  // The put a worker holds is its only held one, so the earlier ones are further.
  lemma OnlyHeld(sh: Shared, i: nat, w: Worker, e: Entry)
    requires PutsOk(sh) && CarriesOk(sh, i, w) && Holds(w, e)
    ensures Names(sh, e, Held) && sh.puts[e.id].src == i && Ahead(sh, e.id, Queued)
    ensures Home(sh.n, e.key) == i ==> Ahead(sh, e.id, Applied)
    ensures Latest(sh, i, Home(sh.n, e.key), e.id, 1)
  {
    hide Home, QueueOk, In;
    forall x | 0 <= x < |sh.puts| && sh.puts[x].src == i && Home(sh.n, sh.puts[x].key) == Home(sh.n, e.key)
      ensures x < e.id ==> Level(sh.puts[x].stage) >= 2
      ensures x > e.id ==> Level(sh.puts[x].stage) <= 1
      ensures x < e.id && Home(sh.n, e.key) == i ==> sh.puts[x].stage.Applied?
    {
      assert InOrder(sh, x, e.id) && InOrder(sh, e.id, x);
      assert HeldOk(sh, i, w, x) && PutOk(sh, x);
    }
  }

  // Writing an entry: every write of the same worker to that key came before it.
  lemma Written(sh: Shared, sh': Shared, i: nat, w: Worker, e: Entry, st: Stage)
    requires ShardOk(sh, i, w) && Moved(sh, sh', e.id, st) && Inserted(st)
    requires sh.puts[e.id].key == e.key && sh.puts[e.id].val == e.val && Home(sh.n, e.key) == i
    requires Latest(sh, sh.puts[e.id].src, i, e.id, 2)
    ensures ShardOk(sh', i, Insert(w, e))
  {
    hide Home;
    var w' := Insert(w, e);
    forall x | 0 <= x < |sh'.puts|
      ensures WrittenOk(sh', i, w', x)
    {
      assert WrittenOk(sh, i, w, x);
    }
    forall k | k in w'.writer
      ensures EntryOk(sh', i, w', k)
    {
      if k != e.key { assert EntryOk(sh, i, w, k); }
    }
    assert w'.shard.Keys == w'.writer.Keys;
  }

  lemma SameShard(sh: Shared, i: nat, w: Worker, w': Worker)
    requires ShardOk(sh, i, w) && w'.shard == w.shard && w'.writer == w.writer
    ensures ShardOk(sh, i, w')
  {
    hide Home;
    forall x | 0 <= x < |sh.puts| ensures WrittenOk(sh, i, w', x) { assert WrittenOk(sh, i, w, x); }
    forall k | k in w'.writer ensures EntryOk(sh, i, w', k) { assert EntryOk(sh, i, w, k); }
  }

  lemma ItemsStay(sh: Shared, sh': Shared, i: nat, items: seq<Entry>, id: Id, st: Stage)
    requires Lists(sh, i, items) && Moved(sh, sh', id, st) && !sh.puts[id].stage.Waiting?
    ensures Lists(sh', i, items)
  {
    hide In, Rising;
    forall k | 0 <= k < |items|
      ensures Names(sh', items[k], Waiting) && sh'.puts[items[k].id].src == i
    {
      assert Names(sh, items[k], Waiting);
    }
  }

  lemma LocalKeeps(sh: Shared, i: nat, w: Worker, e: Entry)
    requires SharedOk(sh) && WorkerOk(sh, i, w) && w.pc == Hold(e) && Home(sh.n, e.key) == i
    ensures Kept(sh, i, HoldStep(sh, i, w, e))
  {
    hide Home, IsPow2, PutsOk, Lists, CountsOk, Rely, Remaining, ShardOk, Ahead;
    var o := HoldStep(sh, i, w, e);
    assert Holds(w, e);
    OnlyHeld(sh, i, w, e);
    MovedPuts(sh, o.sh, e.id, Applied);
    MovedCounts(sh, o.sh, e.id, Applied);
    LocalRely(sh, o.sh, e.id, Applied, i);
    ItemsStay(sh, o.sh, i, w.items, e.id, Applied);
    Written(sh, o.sh, i, w, e, Applied);
    SameShard(o.sh, i, Insert(w, e), o.w);
    AppliedAtMostSent(sh);
    forall id | 0 <= id < |o.sh.puts|
      ensures HeldOk(o.sh, i, o.w, id)
    {
      assert HeldOk(sh, i, w, id);
    }
  }

  lemma PushPuts(sh: Shared, sh': Shared, i: nat, j: nat, e: Entry)
    requires PutsOk(sh) && Moved(sh, sh', e.id, Queued) && Ahead(sh, e.id, Queued) && |Queue(sh.cmd, i, j)| < sh.cap
    requires Names(sh, e, Held) && sh.puts[e.id].src == i != j == Home(sh.n, e.key)
    requires sh'.cmd == sh.cmd[Edge(i, j) := Queue(sh.cmd, i, j) + [e]]
    requires Latest(sh, i, j, e.id, 1)
    ensures PutsOk(sh')
  {
    hide Home, In, Ahead;
    var q := Queue(sh.cmd, i, j);
    Pushed(q, e);
    forall x | 0 <= x < |sh'.puts|
      ensures PutOk(sh', x)
    {
      assert PutOk(sh, x);
    }
    forall a, b | 0 <= a < |sh'.puts| && 0 <= b < |sh'.puts|
      ensures InOrder(sh', a, b)
    {
      assert InOrder(sh, a, b);
      MovedOrder(sh, sh', e.id, Queued, a, b);
    }
    forall a: nat, b: nat
      ensures QueueOk(sh', a, b)
    {
      assert QueueOk(sh, a, b);
      if a == i && b == j {
        forall k | 0 <= k < |q|
          ensures Names(sh', q[k], Queued) && q[k].id < e.id
        {
          assert Names(sh, q[k], Queued);
        }
      } else {
        MovedQueue(sh, sh', e.id, Queued, a, b);
      }
    }
  }

  lemma PushKeeps(sh: Shared, i: nat, w: Worker, e: Entry)
    requires SharedOk(sh) && WorkerOk(sh, i, w) && w.pc == Hold(e) && Home(sh.n, e.key) != i
    requires |Queue(sh.cmd, i, Home(sh.n, e.key))| < sh.cap
    ensures Kept(sh, i, HoldStep(sh, i, w, e))
  {
    hide Home, IsPow2, PutsOk, Lists, CountsOk, Rely, Remaining, ShardOk, Ahead;
    var o := HoldStep(sh, i, w, e);
    assert Holds(w, e);
    OnlyHeld(sh, i, w, e);
    PushPuts(sh, o.sh, i, Home(sh.n, e.key), e);
    MovedCounts(sh, o.sh, e.id, Queued);
    LocalRely(sh, o.sh, e.id, Queued, i);
    ItemsStay(sh, o.sh, i, w.items, e.id, Queued);
    ShardStays(sh, o.sh, i, w, o.w, e.id, Queued);
    forall id | 0 <= id < |o.sh.puts|
      ensures HeldOk(o.sh, i, o.w, id)
    {
      assert HeldOk(sh, i, w, id);
    }
  }

  lemma HoldKeeps(sh: Shared, i: nat, w: Worker, e: Entry)
    requires SharedOk(sh) && WorkerOk(sh, i, w) && w.pc == Hold(e)
    ensures Kept(sh, i, HoldStep(sh, i, w, e))
  {
    hide Home, SharedOk, CarriesOk, ShardOk, Lists, Rely, Remaining;
    var o := HoldStep(sh, i, w, e);
    if Home(sh.n, e.key) == i {
      LocalKeeps(sh, i, w, e);
    } else if |Queue(sh.cmd, i, Home(sh.n, e.key))| < sh.cap {
      PushKeeps(sh, i, w, e);
    } else {
      Walked(sh, i, w, o.w);
    }
  }

  // --- Popping ---

  lemma FirstQueued(sh: Shared, i: nat, src: nat)
    requires PutsOk(sh) && Queue(sh.cmd, src, i) != []
    ensures
      var e := Queue(sh.cmd, src, i)[0];
      && Names(sh, e, Queued) && sh.puts[e.id].src == src && Home(sh.n, e.key) == i && src != i &&
          Ahead(sh, e.id, Popped)
      && Latest(sh, src, i, e.id, 2)
  {
    hide Home;
    assert QueueOk(sh, src, i);
    var q := Queue(sh.cmd, src, i);
    var e := q[0];
    assert PutOk(sh, e.id);
    forall x | 0 <= x < |sh.puts| && sh.puts[x].src == src && Home(sh.n, sh.puts[x].key) == i
      ensures x < e.id ==> Level(sh.puts[x].stage) >= 3
      ensures x > e.id ==> Level(sh.puts[x].stage) <= 2
    {
      assert InOrder(sh, x, e.id) && InOrder(sh, e.id, x) && PutOk(sh, x);
      if sh.puts[x].stage.Queued? {
        var k :| 0 <= k < |q| && q[k].id == x;
      }
    }
  }

  lemma PopPuts(sh: Shared, sh': Shared, i: nat, src: nat, e: Entry)
    requires PutsOk(sh) && Queue(sh.cmd, src, i) != [] && e == Queue(sh.cmd, src, i)[0]
    requires Names(sh, e, Queued) && sh.puts[e.id].src == src != i == Home(sh.n, e.key)
    requires Moved(sh, sh', e.id, Popped) && Ahead(sh, e.id, Popped)
    requires sh'.cmd == sh.cmd[Edge(src, i) := Queue(sh.cmd, src, i)[1..]]
    ensures PutsOk(sh')
  {
    hide Home, In, Ahead;
    var q := Queue(sh.cmd, src, i);
    Shifted(q);
    forall x | 0 <= x < |sh'.puts|
      ensures PutOk(sh', x)
    {
      assert PutOk(sh, x);
    }
    forall a, b | 0 <= a < |sh'.puts| && 0 <= b < |sh'.puts|
      ensures InOrder(sh', a, b)
    {
      assert InOrder(sh, a, b);
      MovedOrder(sh, sh', e.id, Popped, a, b);
    }
    forall a: nat, b: nat
      ensures QueueOk(sh', a, b)
    {
      assert QueueOk(sh, a, b);
      if a == src && b == i {
        forall k | 0 <= k < |q[1..]|
          ensures Names(sh', q[1..][k], Queued)
        {
          assert Names(sh, q[k + 1], Queued);
        }
      } else {
        MovedQueue(sh, sh', e.id, Popped, a, b);
      }
    }
  }

  lemma PopEntryKeeps(sh: Shared, i: nat, w: Worker, src: nat, ctx: Context)
    requires SharedOk(sh) && WorkerOk(sh, i, w) && w.pc == Pop(src, ctx) && src < sh.n && Queue(sh.cmd, src, i) != []
    ensures Kept(sh, i, PopStep(sh, i, w, src, ctx))
  {
    hide Home, IsPow2, PutsOk, Lists, CountsOk, Rely, Remaining, ShardOk, Ahead;
    var o := PopStep(sh, i, w, src, ctx);
    FirstQueued(sh, i, src);
    var e := Queue(sh.cmd, src, i)[0];
    PopPuts(sh, o.sh, i, src, e);
    MovedCounts(sh, o.sh, e.id, Popped);
    LocalRely(sh, o.sh, e.id, Popped, i);
    ItemsStay(sh, o.sh, i, w.items, e.id, Popped);
    Written(sh, o.sh, i, w, e, Popped);
    SameShard(o.sh, i, Insert(w, e), o.w);
    forall x | Holds(o.w, x)
      ensures Names(o.sh, x, Held) && o.sh.puts[x.id].src == i
    {
      assert Holds(w, x);
    }
    forall id | 0 <= id < |o.sh.puts|
      ensures HeldOk(o.sh, i, o.w, id)
    {
      assert HeldOk(sh, i, w, id);
    }
  }

  lemma PopKeeps(sh: Shared, i: nat, w: Worker, src: nat, ctx: Context)
    requires SharedOk(sh) && WorkerOk(sh, i, w) && w.pc == Pop(src, ctx)
    ensures Kept(sh, i, PopStep(sh, i, w, src, ctx))
  {
    hide Home, SharedOk, CarriesOk, ShardOk, Lists, Rely, Remaining;
    var o := PopStep(sh, i, w, src, ctx);
    if src < sh.n && Queue(sh.cmd, src, i) != [] {
      PopEntryKeeps(sh, i, w, src, ctx);
    } else if src >= sh.n && ctx.Last? {
      ExitKeeps(sh, i, w);
    } else {
      Walked(sh, i, w, o.w);
    }
  }

  lemma ExitKeeps(sh: Shared, i: nat, w: Worker)
    requires SharedOk(sh) && WorkerOk(sh, i, w) && w.pc.Pop? && w.pc.ctx.Last?
    ensures Kept(sh, i, Out(sh.(exited := sh.exited + {i}), w.(pc := Exited)))
  {
    hide Home, IsPow2, Rising, In, Sum;
    var sh' := sh.(exited := sh.exited + {i});
    SameQueues(sh, sh');
    SameWorker(sh, sh', i, w, w.(pc := Exited));
  }

  // --- Counting an applied command ---

  lemma CountKeeps(sh: Shared, i: nat, w: Worker, id: Id, src: nat, ctx: Context)
    requires SharedOk(sh) && WorkerOk(sh, i, w) && w.pc == Count(id, src, ctx)
    ensures Kept(sh, i, WorkerStep(sh, i, w))
  {
    hide Home, IsPow2, PutsOk, Lists, CountsOk, Rely, Remaining, ShardOk;
    var o := WorkerStep(sh, i, w);
    CountAhead(sh, i, w);
    MovedPuts(sh, o.sh, id, Applied);
    MovedCounts(sh, o.sh, id, Applied);
    LocalRely(sh, o.sh, id, Applied, i);
    ItemsStay(sh, o.sh, i, w.items, id, Applied);
    ShardStays(sh, o.sh, i, w, o.w, id, Applied);
    AppliedAtMostSent(sh);
    AppliedAtMostSent(o.sh);
    forall x | Holds(o.w, x)
      ensures Names(o.sh, x, Held) && o.sh.puts[x.id].src == i
    {
      assert Holds(w, x);
    }
    forall x | 0 <= x < |o.sh.puts|
      ensures HeldOk(o.sh, i, o.w, x)
    {
      assert HeldOk(sh, i, w, x);
    }
  }

  lemma CountAhead(sh: Shared, i: nat, w: Worker)
    requires PutsOk(sh) && CarriesOk(sh, i, w) && w.pc.Count?
    ensures Ahead(sh, w.pc.id, Applied)
  {
    hide Home, QueueOk, In;
    forall x | 0 <= x < w.pc.id && Home(sh.n, sh.puts[x].key) == i && sh.puts[x].src == sh.puts[w.pc.id].src
      ensures sh.puts[x].stage.Applied?
    {
      assert InOrder(sh, x, w.pc.id) && HeldOk(sh, i, w, x);
    }
  }

  // ---------------------------------------------------------------------------
  // Runs
  // ---------------------------------------------------------------------------

  lemma WorkerKeeps(sh: Shared, i: nat, w: Worker)
    requires SharedOk(sh) && WorkerOk(sh, i, w)
    ensures Kept(sh, i, WorkerStep(sh, i, w))
  {
    hide SharedOk, CarriesOk, ShardOk, Lists, Rely, Remaining, NextStep, HoldStep, PopStep;
    match w.pc {
      case NextItem => if w.items == [] { AnnounceKeeps(sh, i, w); } else { TakeKeeps(sh, i, w); }
      case Hold(e) => HoldKeeps(sh, i, w, e);
      case Pop(src, ctx) => PopKeeps(sh, i, w, src, ctx);
      case Count(id, src, ctx) => CountKeeps(sh, i, w, id, src, ctx);
      case LoadDone => LoadsWalk(sh, i, w);
      case LoadSent(d) => LoadsWalk(sh, i, w);
      case LoadApplied(d, n) => LoadsWalk(sh, i, w);
      case Exited => LoadsWalk(sh, i, w);
    }
  }

  lemma LoadsWalk(sh: Shared, i: nat, w: Worker)
    requires SharedOk(sh) && WorkerOk(sh, i, w) && (w.pc.LoadDone? || w.pc.LoadSent? || w.pc.LoadApplied? ||
        w.pc.Exited?)
    ensures Kept(sh, i, WorkerStep(sh, i, w))
  {
    hide PutsOk, CarriesOk, ShardOk, Lists, Rely, Remaining, Sum;
    Walked(sh, i, w, WorkerStep(sh, i, w).w);
  }

  lemma InitInv(s: State)
    requires Init(s)
    ensures Inv(s)
  {
    hide Home, IsPow2, Rising, In, Sum;
    NoneSent(s.sh.puts);
    forall i: nat, j: nat ensures QueueOk(s.sh, i, j) { assert Rising([]) by { RisingEmpty(); } }
    forall i | 0 <= i < |s.workers| ensures WorkerOk(s.sh, i, s.workers[i]) {}
  }

  lemma RisingEmpty()
    ensures Rising([])
  {
  }

  lemma {:induction false} NoneSent(puts: seq<PutRecord>)
    requires forall id :: 0 <= id < |puts| ==> puts[id].stage == Waiting
    ensures Sum(puts, WasSent) == 0 && Sum(puts, WasApplied) == 0
  {
    if puts != [] { NoneSent(puts[..|puts| - 1]); }
  }

  lemma StepKeepsInv(s: State, i: nat, s': State)
    requires Inv(s) && Next(s, i, s')
    ensures Inv(s') && s'.sh.n == s.sh.n && (s'.sh == s.sh || Remaining(s'.sh) < Remaining(s.sh))
  {
    hide SharedOk, WorkerOk, Rely, WorkerStep, Remaining;
    assert WorkerOk(s.sh, i, s.workers[i]);
    WorkerKeeps(s.sh, i, s.workers[i]);
    forall k | 0 <= k < |s'.workers|
      ensures WorkerOk(s'.sh, k, s'.workers[k])
    {
      if k != i {
        assert WorkerOk(s.sh, k, s.workers[k]);
        assert Rely(s.sh, s'.sh, k);
        WorkerUndisturbed(s.sh, s'.sh, k, s.workers[k]);
      }
    }
  }

  predicate StepAt(states: seq<State>, turns: seq<nat>, k: nat) {
    k < |turns| && k + 1 < |states| && Next(states[k], turns[k], states[k + 1])
  }

  // Any schedule.
  predicate Execution(states: seq<State>, turns: seq<nat>) {
    |states| == |turns| + 1 && forall k {:trigger StepAt(states, turns, k)} :: 0 <= k < |turns| ==>
        StepAt(states, turns, k)
  }

  lemma {:induction false} AlwaysInv(states: seq<State>, turns: seq<nat>, k: nat)
    requires Execution(states, turns) && Init(states[0]) && k < |states|
    ensures Inv(states[k])
  {
    hide Inv, Init, Next;
    if k == 0 {
      InitInv(states[0]);
    } else {
      AlwaysInv(states, turns, k - 1);
      assert StepAt(states, turns, k - 1);
      StepKeepsInv(states[k - 1], turns[k - 1], states[k]);
    }
  }

  // Never more applied than sent.
  lemma AppliedNeverAhead(states: seq<State>, turns: seq<nat>, k: nat)
    requires Execution(states, turns) && Init(states[0]) && k < |states|
    ensures states[k].sh.applied <= states[k].sh.sent
  {
    hide PutsOk, WorkerOk, Init, Next;
    AlwaysInv(states, turns, k);
    AppliedAtMostSent(states[k].sh);
  }

  // No worker stops early: once one has decided to, every item of every worker
  // has been applied, every queue is empty and nobody holds anything.
  lemma StopMeansApplied(states: seq<State>, turns: seq<nat>, k: nat, i: nat)
    requires Execution(states, turns) && Init(states[0]) && k < |states|
    requires i < |states[k].workers| && Settled(states[k].workers[i].pc)
    ensures forall id :: 0 <= id < |states[k].sh.puts| ==> states[k].sh.puts[id].stage == Applied
    ensures forall a, b :: Queue(states[k].sh.cmd, a, b) == []
    ensures forall a :: 0 <= a < |states[k].workers| ==> states[k].workers[a].items == []
  {
    hide Init, Next;
    AlwaysInv(states, turns, k);
    AllSettled(states[k], i);
  }

  lemma AllSettled(s: State, i: nat)
    requires Inv(s) && i < |s.workers| && Settled(s.workers[i].pc)
    ensures forall id :: 0 <= id < |s.sh.puts| ==> s.sh.puts[id].stage == Applied
    ensures forall a, b :: Queue(s.sh.cmd, a, b) == []
    ensures forall a :: 0 <= a < |s.workers| ==> s.workers[a].items == []
  {
    hide Home, IsPow2, In, CarriesOk, ShardOk, Rising, Sum;
    assert WorkerOk(s.sh, i, s.workers[i]);
    SetBound(s.sh.announced, s.sh.n);
    AppliedAtMostSent(s.sh);
    forall a | 0 <= a < |s.workers|
      ensures s.workers[a].items == []
    {
      assert WorkerOk(s.sh, a, s.workers[a]);
    }
    forall id | 0 <= id < |s.sh.puts|
      ensures s.sh.puts[id].stage == Applied
    {
      var a := s.sh.puts[id].src;
      assert PutOk(s.sh, id);
      assert WorkerOk(s.sh, a, s.workers[a]);
      NoneIn(id);
    }
    forall a: nat, b: nat
      ensures Queue(s.sh.cmd, a, b) == []
    {
      assert QueueOk(s.sh, a, b);
      var q := Queue(s.sh.cmd, a, b);
      assert |q| > 0 ==> Names(s.sh, q[0], Queued);
    }
  }

  lemma NoneIn(id: Id)
    ensures !In([], id)
  {
  }

  // What the stores hold then: every submitted key at its owner and nowhere
  // else, with the value of the last put some worker made to it.
  lemma FinalContents(states: seq<State>, turns: seq<nat>, k: nat, i: nat, key: Key, j: nat)
    requires Execution(states, turns) && Init(states[0]) && k < |states|
    requires i < |states[k].workers| && Settled(states[k].workers[i].pc) && j < |states[k].workers|
    ensures
      var sh, shard := states[k].sh, states[k].workers[j].shard;
      && (key in shard <==> j == Home(sh.n, key) && exists id :: 0 <= id < |sh.puts| && sh.puts[id].key == key)
      && (key in shard ==> exists id :: LastPut(sh, id, key, shard[key]))
  {
    hide Init, Next, Home, PutsOk, CountsOk, CarriesOk, Lists, LoadsOk;
    AlwaysInv(states, turns, k);
    AllSettled(states[k], i);
    var sh, w := states[k].sh, states[k].workers[j];
    assert WorkerOk(sh, j, w);
    if key in w.shard {
      var id := w.writer[key];
      assert EntryOk(sh, j, w, key);
      assert 0 <= id < |sh.puts| && sh.puts[id].key == key;
      forall x | 0 <= x < |sh.puts| && sh.puts[x].key == key && sh.puts[x].src == sh.puts[id].src
        ensures x <= id
      {
        assert WrittenOk(sh, j, w, x);
      }
      assert LastPut(sh, id, key, w.shard[key]);
    } else if id :| 0 <= id < |sh.puts| && sh.puts[id].key == key {
      assert WrittenOk(sh, j, w, id);
    }
  }

  // Put `id` is the last one its worker makes to `key`.
  predicate LastPut(sh: Shared, id: Id, key: Key, val: Value) {
    && id < |sh.puts| && sh.puts[id].key == key && sh.puts[id].val == val
    && forall x :: 0 <= x < |sh.puts| && sh.puts[x].key == key && sh.puts[x].src == sh.puts[id].src ==> x <= id
  }

  // ---------------------------------------------------------------------------
  // The same in terms of the workload
  // ---------------------------------------------------------------------------

  lemma StepKeepsPuts(s: State, i: nat, s': State)
    requires Next(s, i, s')
    ensures s'.sh.n == s.sh.n && |s'.workers| == |s.workers| && |s'.sh.puts| == |s.sh.puts|
    ensures forall id {:trigger s'.sh.puts[id]} :: 0 <= id < |s.sh.puts| ==> SamePut(s.sh.puts[id], s'.sh.puts[id])
  {
    hide Home;
  }

  lemma {:induction false} PutsStay(states: seq<State>, turns: seq<nat>, k: nat)
    requires Execution(states, turns) && k < |states|
    ensures var sh, sh' := states[0].sh, states[k].sh;
            && sh'.n == sh.n && |states[k].workers| == |states[0].workers| && |sh'.puts| == |sh.puts|
            && forall id {:trigger sh'.puts[id]} :: 0 <= id < |sh.puts| ==> SamePut(sh.puts[id], sh'.puts[id])
  {
    hide Next;
    if k > 0 {
      PutsStay(states, turns, k - 1);
      assert StepAt(states, turns, k - 1);
      StepKeepsPuts(states[k - 1], turns[k - 1], states[k]);
      forall id | 0 <= id < |states[0].sh.puts| ensures SamePut(states[0].sh.puts[id], states[k].sh.puts[id]) {
        assert SamePut(states[0].sh.puts[id], states[k - 1].sh.puts[id]);
      }
    }
  }

  // Worker `a` has an item with this key; its last one has this value.
  predicate Submits(s: State, a: nat, key: Key) {
    a < |s.workers| && exists x :: 0 <= x < |s.workers[a].items| && s.workers[a].items[x].key == key
  }

  predicate LastItem(s: State, a: nat, x: nat, key: Key, val: Value) {
    && a < |s.workers| && x < |s.workers[a].items|
    && s.workers[a].items[x].key == key && s.workers[a].items[x].val == val
    && forall y :: x < y < |s.workers[a].items| ==> s.workers[a].items[y].key != key
  }

  // At the start the puts are the items.
  lemma PutIsItem(s: State, id: Id) returns (x: nat)
    requires Init(s) && id < |s.sh.puts|
    ensures var p := s.sh.puts[id];
            && p.src < |s.workers| && x < |s.workers[p.src].items|
            && s.workers[p.src].items[x] == Entry(p.key, p.val, id)
  {
    hide IsPow2;
    var a := s.sh.puts[id].src;
    assert Lists(s.sh, a, s.workers[a].items);
    assert In(s.workers[a].items, id);
    x :| 0 <= x < |s.workers[a].items| && s.workers[a].items[x].id == id;
  }

  lemma ItemIsPut(s: State, a: nat, x: nat)
    requires Init(s) && a < |s.workers| && x < |s.workers[a].items|
    ensures var e := s.workers[a].items[x];
            && e.id < |s.sh.puts| && s.sh.puts[e.id].key == e.key && s.sh.puts[e.id].val == e.val
            && s.sh.puts[e.id].src == a
    ensures forall y :: x < y < |s.workers[a].items| ==> s.workers[a].items[x].id < s.workers[a].items[y].id
  {
    hide IsPow2, In;
    assert Lists(s.sh, a, s.workers[a].items);
  }

  // When a worker stops: the keys of all items, each at its owner, with the value of the
  // last item some worker had for it.
  lemma FinalItems(states: seq<State>, turns: seq<nat>, k: nat, i: nat, key: Key, j: nat)
    requires Execution(states, turns) && Init(states[0]) && k < |states|
    requires i < |states[k].workers| && Settled(states[k].workers[i].pc) && j < |states[k].workers|
    ensures
      var s, shard := states[0], states[k].workers[j].shard;
      && (key in shard <==> j == Home(s.sh.n, key) && exists a :: Submits(s, a, key))
      && (key in shard ==> exists a, x :: LastItem(s, a, x, key, shard[key]))
  {
    hide Init, StepAt, Home, Settled;
    var s, sh := states[0], states[k].sh;
    PutsStay(states, turns, k);
    FinalContents(states, turns, k, i, key, j);
    if a: nat :| Submits(s, a, key) {
      var x :| 0 <= x < |s.workers[a].items| && s.workers[a].items[x].key == key;
      ItemIsPut(s, a, x);
      assert SamePut(s.sh.puts[s.workers[a].items[x].id], sh.puts[s.workers[a].items[x].id]);
      assert sh.puts[s.workers[a].items[x].id].key == key;
    }
    if key in states[k].workers[j].shard {
      var id :| LastPut(sh, id, key, states[k].workers[j].shard[key]);
      LastPutIsLastItem(s, sh, id, key, states[k].workers[j].shard[key]);
    }
  }

  lemma LastPutIsLastItem(s: State, sh: Shared, id: Id, key: Key, val: Value)
    requires Init(s) && LastPut(sh, id, key, val) && |sh.puts| == |s.sh.puts|
    requires forall x {:trigger sh.puts[x]} :: 0 <= x < |s.sh.puts| ==> SamePut(s.sh.puts[x], sh.puts[x])
    ensures exists a, x :: LastItem(s, a, x, key, val)
    ensures exists a :: Submits(s, a, key)
  {
    hide Init;
    assert SamePut(s.sh.puts[id], sh.puts[id]);
    var a := s.sh.puts[id].src;
    var x := PutIsItem(s, id);
    ItemIsPut(s, a, x);
    forall y | x < y < |s.workers[a].items| ensures s.workers[a].items[y].key != key {
      ItemIsPut(s, a, y);
      assert SamePut(s.sh.puts[s.workers[a].items[y].id], sh.puts[s.workers[a].items[y].id]);
    }
    assert LastItem(s, a, x, key, val) && Submits(s, a, key);
  }

  // ---------------------------------------------------------------------------
  // Progress: the workload always finishes
  // ---------------------------------------------------------------------------

  // Something worker `i` can do that brings the run forward.
  datatype Goal = ToPop(src: nat) | ToPlace(e: Entry) | ToTake | ToCount | ToExit

  predicate Ready(sh: Shared, i: nat, w: Worker, g: Goal) {
    match g
    case ToPop(src) => src < sh.n && Queue(sh.cmd, src, i) != [] && !Settled(w.pc)
    case ToPlace(e) => Holds(w, e) && (Home(sh.n, e.key) == i || |Queue(sh.cmd, i, Home(sh.n, e.key))| < sh.cap)
    case ToTake => w.pc.NextItem? || ((w.pc.Pop? || w.pc.Count?) && w.pc.ctx.AfterPut?)
    case ToCount => w.pc.Count?
    case ToExit => Announced(w.pc) && !w.pc.Exited? && AllAnnounced(sh) && sh.sent == sh.applied
  }

  // How many steps it is away from that, unless it brings the run forward before.
  function Distance(n: nat, w: Worker, g: Goal): int {
    match w.pc
    case NextItem => 0
    case Hold(_) => if g.ToPop? then 1 + g.src else 0
    case Pop(s, ctx) =>
      if g.ToPop? then (if s <= g.src then g.src - s else n - s + 4 + g.src)
      else if ctx.Quiesce? then n - s + n + 5
      else n - s + 1
    case Count(_, _, _) => 0
    case LoadDone => if g.ToPop? then 3 + g.src else n + 4
    case LoadSent(d) => if g.ToPop? then 2 + g.src else if d then n + 3 else 2 * n + 7
    case LoadApplied(d, _) => if g.ToPop? then 1 + g.src else if d then n + 2 else 2 * n + 6
    case Exited => 0
  }

  lemma Nearer(sh: Shared, i: nat, w: Worker, g: Goal)
    requires SharedOk(sh) && WorkerOk(sh, i, w) && Ready(sh, i, w, g)
    ensures 0 <= Distance(sh.n, w, g) <= 2 * sh.n + 7
    ensures
      var o := WorkerStep(sh, i, w);
      o.sh == sh ==> Ready(sh, i, o.w, g) && Distance(sh.n, o.w, g) < Distance(sh.n, w, g)
  {
    hide PutsOk, Lists, ShardOk, Home, IsPow2, Sum, NextStep, HoldStep, PopStep;
    match w.pc {
      case NextItem => NextMoves(sh, i, w);
      case Hold(e) => HoldNearer(sh, i, w, g);
      case Pop(src, ctx) => PopNearer(sh, i, w, g);
      case Count(id, src, ctx) => assert WorkerStep(sh, i, w).sh.applied != sh.applied;
      case LoadApplied(d, sent) => if g.ToPop? { QueuedNotApplied(sh, g.src, i); }
      case _ =>
    }
  }

  lemma QueuedNotApplied(sh: Shared, a: nat, b: nat)
    requires SharedOk(sh) && Queue(sh.cmd, a, b) != []
    ensures sh.sent != sh.applied
  {
    hide Home, IsPow2, Sum, Rising, In;
    assert QueueOk(sh, a, b);
    assert Names(sh, Queue(sh.cmd, a, b)[0], Queued);
    AppliedAtMostSent(sh);
  }

  lemma NextMoves(sh: Shared, i: nat, w: Worker)
    ensures NextStep(sh, i, w).sh != sh
  {
    assert NextStep(sh, i, w).sh.phase1 != sh.phase1 || NextStep(sh, i, w).sh.sent != sh.sent;
  }

  lemma HoldNearer(sh: Shared, i: nat, w: Worker, g: Goal)
    requires WorkerOk(sh, i, w) && Ready(sh, i, w, g) && w.pc.Hold?
    ensures
      var o := HoldStep(sh, i, w, w.pc.e);
      o.sh == sh ==> Ready(sh, i, o.w, g) && Distance(sh.n, o.w, g) < Distance(sh.n, w, g)
  {
    hide Lists, ShardOk, Home, CarriesOk;
    var e := w.pc.e;
    var o := HoldStep(sh, i, w, e);
    var q := Queue(sh.cmd, i, Home(sh.n, e.key));
    assert Holds(w, e);
    assert |q + [e]| > |q|;
    assert Home(sh.n, e.key) == i ==> o.sh.applied != sh.applied;
    assert Home(sh.n, e.key) != i && |q| < sh.cap ==> Queue(o.sh.cmd, i, Home(sh.n, e.key)) == q + [e];
  }

  lemma PopNearer(sh: Shared, i: nat, w: Worker, g: Goal)
    requires WorkerOk(sh, i, w) && Ready(sh, i, w, g) && w.pc.Pop?
    ensures
      var o := PopStep(sh, i, w, w.pc.src, w.pc.ctx);
      o.sh == sh ==> Ready(sh, i, o.w, g) && Distance(sh.n, o.w, g) < Distance(sh.n, w, g)
  {
    hide Lists, ShardOk, Home, CarriesOk;
    var src := w.pc.src;
    var o := PopStep(sh, i, w, src, w.pc.ctx);
    var q := Queue(sh.cmd, src, i);
    if src < sh.n && q != [] {
      assert Queue(o.sh.cmd, src, i) == q[1..];
      assert |q[1..]| < |q|;
    }
  }

  ghost predicate SomeReady(s: State) {
    exists i, g :: 0 <= i < |s.workers| && Ready(s.sh, i, s.workers[i], g)
  }

  lemma SomebodyCan(s: State, r: nat)
    requires Inv(s) && r < |s.workers| && !s.workers[r].pc.Exited?
    ensures SomeReady(s)
  {
    hide SharedOk, WorkerOk, Home, Announced;
    if i :| 0 <= i < |s.workers| && s.workers[i].pc.Count? {
      assert Ready(s.sh, i, s.workers[i], ToCount);
    } else if j, i :| 0 <= j < |s.workers| && 0 <= i < |s.workers| && Queue(s.sh.cmd, j, i) != [] {
      if Settled(s.workers[i].pc) { AllSettled(s, i); }
      assert Ready(s.sh, i, s.workers[i], ToPop(j));
    } else if i, e :| 0 <= i < |s.workers| && Holds(s.workers[i], e) {
      PlaceFits(s, i, e);
    } else if i :| 0 <= i < |s.workers| && !Announced(s.workers[i].pc) {
      NotAnnounced(s.workers[i]);
      assert Ready(s.sh, i, s.workers[i], ToTake);
    } else {
      EverythingApplied(s);
      assert Ready(s.sh, r, s.workers[r], ToExit);
    }
  }

  lemma NotAnnounced(w: Worker)
    requires !Announced(w.pc) && !w.pc.Count? && forall e :: !Holds(w, e)
    ensures w.pc.NextItem? || ((w.pc.Pop? || w.pc.Count?) && w.pc.ctx.AfterPut?)
  {
    if w.pc.Hold? {
      assert Holds(w, w.pc.e);
    } else if w.pc.Pop? && w.pc.ctx.Retry? {
      assert Holds(w, w.pc.ctx.e);
    }
  }

  lemma HomeInRange(n: nat, k: Key)
    requires IsPow2(n)
    ensures Home(n, k) < n
  {
  }

  lemma PlaceFits(s: State, i: nat, e: Entry)
    requires Inv(s) && i < |s.workers| && Holds(s.workers[i], e)
    requires forall a, b :: 0 <= a < |s.workers| && 0 <= b < |s.workers| ==> Queue(s.sh.cmd, a, b) == []
    ensures SomeReady(s)
  {
    hide PutsOk, CountsOk, WorkerOk, IsPow2, Home;
    HomeInRange(s.sh.n, e.key);
    assert Ready(s.sh, i, s.workers[i], ToPlace(e));
  }

  // With the queues empty and nobody holding anything, the counters agree.
  lemma EverythingApplied(s: State)
    requires Inv(s)
    requires forall i :: 0 <= i < |s.workers| ==> Announced(s.workers[i].pc) && !s.workers[i].pc.Count?
    requires forall a, b :: 0 <= a < |s.workers| && 0 <= b < |s.workers| ==> Queue(s.sh.cmd, a, b) == []
    requires forall i, e :: 0 <= i < |s.workers| ==> !Holds(s.workers[i], e)
    ensures AllAnnounced(s.sh) && s.sh.sent == s.sh.applied
  {
    hide Home, IsPow2, Sum, Rising, ShardOk, In, Announced;
    forall i: nat | i < s.sh.n
      ensures i in s.sh.announced
    {
      assert WorkerOk(s.sh, i, s.workers[i]);
    }
    FullSet(s.sh.announced, s.sh.n);
    forall id | 0 <= id < |s.sh.puts|
      ensures s.sh.puts[id].stage == Applied
    {
      MustBeApplied(s, id);
    }
    SumCompare(s.sh.puts, WasApplied, WasSent);
  }

  lemma MustBeApplied(s: State, id: Id)
    requires Inv(s) && id < |s.sh.puts|
    requires forall i :: 0 <= i < |s.workers| ==> Announced(s.workers[i].pc) && !s.workers[i].pc.Count?
    requires forall a, b :: 0 <= a < |s.workers| && 0 <= b < |s.workers| ==> Queue(s.sh.cmd, a, b) == []
    requires forall i, e :: 0 <= i < |s.workers| ==> !Holds(s.workers[i], e)
    ensures s.sh.puts[id].stage == Applied
  {
    hide IsPow2, Home, Sum, Rising, ShardOk, In, Announced;
    var p := s.sh.puts[id];
    assert PutOk(s.sh, id);
    HomeInRange(s.sh.n, p.key);
    NoneIn(id);
    assert WorkerOk(s.sh, p.src, s.workers[p.src]);
    assert HeldOk(s.sh, p.src, s.workers[p.src], id);
    var o := Home(s.sh.n, p.key);
    assert WorkerOk(s.sh, o, s.workers[o]);
    assert HeldOk(s.sh, o, s.workers[o], id);
  }

  lemma {:induction false} FullSet(s: set<nat>, n: nat)
    requires (forall x :: x in s ==> x < n) && forall x: nat :: x < n ==> x in s
    ensures |s| == n
  {
    if n > 0 {
      assert s == (s - {n - 1}) + {n - 1};
      FullSet(s - {n - 1}, n - 1);
    }
  }

  // ---------------------------------------------------------------------------
  // Fair schedules
  // ---------------------------------------------------------------------------

  ghost predicate Closed(states: seq<State>, turns: seq<nat>) {
    Execution(states, turns) && Inv(states[0])
  }

  lemma ClosedTail(states: seq<State>, turns: seq<nat>)
    requires Closed(states, turns) && turns != []
    ensures Next(states[0], turns[0], states[1]) && Closed(states[1..], turns[1..])
    ensures states[1].sh.n == states[0].sh.n
    ensures states[1].sh == states[0].sh || Remaining(states[1].sh) < Remaining(states[0].sh)
  {
    hide Inv, Next, Remaining;
    assert StepAt(states, turns, 0);
    StepKeepsInv(states[0], turns[0], states[1]);
    forall k | 0 <= k < |turns[1..]|
      ensures StepAt(states[1..], turns[1..], k)
    {
      assert StepAt(states, turns, k + 1);
    }
  }

  lemma {:induction false} NeverRises(states: seq<State>, turns: seq<nat>)
    requires Closed(states, turns)
    ensures Remaining(states[|turns|].sh) <= Remaining(states[0].sh) && states[|turns|].sh.n == states[0].sh.n
    ensures Inv(states[|turns|])
    decreases |turns|
  {
    hide Inv, Next, Remaining;
    if turns != [] {
      ClosedTail(states, turns);
      NeverRises(states[1..], turns[1..]);
    }
  }

  function Turns(turns: seq<nat>, i: nat): nat {
    if turns == [] then 0 else (if turns[0] == i then 1 else 0) + Turns(turns[1..], i)
  }

  lemma {:induction false} ReadyAdvances(states: seq<State>, turns: seq<nat>, i: nat, g: Goal)
    requires Closed(states, turns) && i < |states[0].workers| && Ready(states[0].sh, i, states[0].workers[i], g)
    requires Turns(turns, i) > Distance(states[0].sh.n, states[0].workers[i], g)
    ensures Remaining(states[|turns|].sh) < Remaining(states[0].sh)
    decreases |turns|
  {
    hide SharedOk, WorkerOk, WorkerStep, Ready, Distance, Remaining;
    assert WorkerOk(states[0].sh, i, states[0].workers[i]);
    Nearer(states[0].sh, i, states[0].workers[i], g);
    ClosedTail(states, turns);
    if states[1].sh == states[0].sh {
      ReadyAdvances(states[1..], turns[1..], i, g);
    } else {
      NeverRises(states[1..], turns[1..]);
    }
  }

  // In any reachable state in which a worker is still running there is one whose
  // next 2n + 8 turns bring the run forward, however they are interleaved.
  lemma NoDeadlock(s: State, r: nat) returns (i: nat)
    requires Inv(s) && r < |s.workers| && !s.workers[r].pc.Exited?
    ensures i < |s.workers|
    ensures forall states: seq<State>, turns: seq<nat> {:trigger Closed(states, turns)} ::
      Closed(states, turns) && states[0] == s && Turns(turns, i) > 2 * s.sh.n + 7 ==>
        Remaining(states[|turns|].sh) < Remaining(s.sh)
  {
    hide SharedOk, WorkerOk, WorkerStep, Next, Ready, Distance, Remaining, Turns;
    SomebodyCan(s, r);
    var g;
    i, g :| 0 <= i < |s.workers| && Ready(s.sh, i, s.workers[i], g);
    assert WorkerOk(s.sh, i, s.workers[i]);
    Nearer(s.sh, i, s.workers[i], g);
    forall states: seq<State>, turns: seq<nat> | Closed(states, turns) && states[0] == s &&
        Turns(turns, i) > 2 * s.sh.n + 7
      ensures Remaining(states[|turns|].sh) < Remaining(s.sh)
    {
      ReadyAdvances(states, turns, i, g);
    }
  }

  // `m` rounds in a row, in each of which every worker gets enough turns.
  ghost predicate FairRounds(states: seq<State>, turns: seq<nat>, m: nat) {
    |states| == |turns| + 1 &&
    (m > 0 ==> exists c: nat {:trigger Round(states, turns, c)} ::
       Round(states, turns, c) && FairRounds(states[c..], turns[c..], m - 1))
  }

  ghost predicate Round(states: seq<State>, turns: seq<nat>, c: nat) {
    && c <= |turns| < |states|
    && forall i :: 0 <= i < |states[0].workers| ==> Turns(turns[..c], i) > 2 * states[0].sh.n + 7
  }

  lemma {:induction false} ClosedSplit(states: seq<State>, turns: seq<nat>, c: nat)
    requires Closed(states, turns) && c <= |turns|
    ensures Closed(states[..c + 1], turns[..c]) && Closed(states[c..], turns[c..])
  {
    hide Inv, Next;
    var states1, turns1 := states[..c + 1], turns[..c];
    forall k | 0 <= k < |turns1|
      ensures StepAt(states1, turns1, k)
    {
      assert StepAt(states, turns, k);
    }
    forall k | 0 <= k < |turns[c..]|
      ensures StepAt(states[c..], turns[c..], k)
    {
      assert StepAt(states, turns, c + k);
    }
    NeverRises(states1, turns1);
  }

  // Enough fair rounds end the run: every worker exits.
  lemma {:induction false} EverybodyExits(states: seq<State>, turns: seq<nat>, m: nat)
    requires Closed(states, turns) && FairRounds(states, turns, m) && Remaining(states[0].sh) <= m
    ensures forall i :: 0 <= i < |states[|turns|].workers| ==> states[|turns|].workers[i].pc.Exited?
    decreases m
  {
    hide SharedOk, WorkerOk, Next, Turns, Remaining;
    if r :| 0 <= r < |states[0].workers| && !states[0].workers[r].pc.Exited? {
      assert WorkerOk(states[0].sh, r, states[0].workers[r]);
      SomeRemains(states[0].sh, r, states[0].workers[r]);
      var c: nat :| Round(states, turns, c) && FairRounds(states[c..], turns[c..], m - 1);
      ClosedSplit(states, turns, c);
      var i := NoDeadlock(states[0], r);
      assert Closed(states[..c + 1], turns[..c]) && Turns(turns[..c], i) > 2 * states[0].sh.n + 7;
      EverybodyExits(states[c..], turns[c..], m - 1);
    } else {
      StayExited(states, turns);
    }
  }

  lemma SomeRemains(sh: Shared, r: nat, w: Worker)
    requires SharedOk(sh) && WorkerOk(sh, r, w) && !w.pc.Exited?
    ensures Remaining(sh) > 0
  {
    hide PutsOk, Lists, CarriesOk, ShardOk, Sum;
    SetBound(sh.announced, sh.n);
    SetBound(sh.exited, sh.n);
  }

  lemma {:induction false} StayExited(states: seq<State>, turns: seq<nat>)
    requires Closed(states, turns) && forall i :: 0 <= i < |states[0].workers| ==> states[0].workers[i].pc.Exited?
    ensures forall i :: 0 <= i < |states[|turns|].workers| ==> states[|turns|].workers[i].pc.Exited?
    decreases |turns|
  {
    hide Inv;
    if turns != [] {
      ClosedTail(states, turns);
      StayExited(states[1..], turns[1..]);
    }
  }

  // For runs: from the start, enough fair rounds make every worker exit.
  lemma RunEnds(states: seq<State>, turns: seq<nat>, m: nat)
    requires Execution(states, turns) && Init(states[0])
    requires FairRounds(states, turns, m) && Remaining(states[0].sh) <= m
    ensures forall i :: 0 <= i < |states[|turns|].workers| ==> states[|turns|].workers[i].pc.Exited?
  {
    hide Inv, Init, Next, Turns, Remaining, FairRounds;
    InitInv(states[0]);
    EverybodyExits(states, turns, m);
  }
}
