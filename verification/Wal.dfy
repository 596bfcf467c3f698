/** Group commit: writers push records onto a lock-free stack; one batcher swaps
  * the stack out, restores submission order, writes the batch at the end of the
  * file and signals every record of it.
  *
  * Writers and the batcher interleave arbitrarily, and every `write_at` may be
  * short, write nothing or fail.  History variables that no step reads: the log
  * (all records the batcher has taken, in the order it writes them), a record's
  * place, the records already pushed when its append began, whether all its
  * bytes were accepted by `write_at`, and whether a write failed.
  */
module Wal {
  import opened Keys

  type Id = nat

  datatype Place = Fetched | Stacked | Logged

  datatype Rec = Rec(data: seq<Byte>, seqNo: nat, done: bool, place: Place, stored: bool, before: set<Id>)

  datatype Pc =
    | Top
    | Swap(running: bool)
    | Write(running: bool, k: nat, written: nat)
    | Signal(running: bool, k: nat)
    | Check(running: bool)
    | Exited

  datatype State = State(
    nextSeq: nat, stack: seq<Id>, running: bool, recs: seq<Rec>,
    file: seq<Byte>, offset: nat,
    pc: Pc, batch: seq<Id>, at: nat,          // the batcher: its batch and where in the file it goes
    start: seq<Byte>, log: seq<Id>, failed: bool)

  // ---------------------------------------------------------------------------
  // The file
  // ---------------------------------------------------------------------------

  function Zeros(n: nat): seq<Byte> { seq(n, _ => 0) }

  // A positional write; a write past the end leaves a hole of zeros.
  function WriteAt(f: seq<Byte>, off: nat, d: seq<Byte>): seq<Byte> {
    if off >= |f| then f + Zeros(off - |f|) + d
    else if off + |d| >= |f| then f[..off] + d
    else f[..off] + d + f[off + |d|..]
  }

  function Bytes(recs: seq<Rec>, ids: seq<Id>): seq<Byte> {
    if ids == [] then []
    else Bytes(recs, ids[..|ids| - 1]) + (if ids[|ids| - 1] < |recs| then recs[ids[|ids| - 1]].data else [])
  }

  // ---------------------------------------------------------------------------
  // Restoring submission order
  // ---------------------------------------------------------------------------

  function SeqNo(recs: seq<Rec>, id: Id): nat { if id < |recs| then recs[id].seqNo else 0 }

  predicate InOrder(recs: seq<Rec>, ids: seq<Id>) {
    forall a, b :: 0 <= a < b < |ids| ==> SeqNo(recs, ids[a]) <= SeqNo(recs, ids[b])
  }

  function Insert(recs: seq<Rec>, id: Id, ids: seq<Id>): seq<Id> {
    if ids == [] || SeqNo(recs, id) <= SeqNo(recs, ids[0]) then [id] + ids
    else [ids[0]] + Insert(recs, id, ids[1..])
  }

  // The batch in the order of the sequence numbers.
  function Sorted(recs: seq<Rec>, ids: seq<Id>): seq<Id> {
    if ids == [] then [] else Insert(recs, ids[0], Sorted(recs, ids[1..]))
  }

  lemma {:induction false} InsertSorts(recs: seq<Rec>, id: Id, ids: seq<Id>)
    requires InOrder(recs, ids)
    ensures InOrder(recs, Insert(recs, id, ids)) && multiset(Insert(recs, id, ids)) == multiset(ids) + multiset{id}
    ensures forall x :: x in Insert(recs, id, ids) ==> x == id || x in ids
  {
    if ids != [] && SeqNo(recs, id) > SeqNo(recs, ids[0]) {
      var rest := ids[1..];
      assert ids == [ids[0]] + rest;
      InsertSorts(recs, id, rest);
      Leads(recs, ids[0], Insert(recs, id, rest));
    } else {
      Leads(recs, id, ids);
    }
  }

  lemma Leads(recs: seq<Rec>, id: Id, ids: seq<Id>)
    requires InOrder(recs, ids) && forall x :: x in ids ==> SeqNo(recs, id) <= SeqNo(recs, x)
    ensures InOrder(recs, [id] + ids)
  {
  }

  lemma {:induction false} SortedSorts(recs: seq<Rec>, ids: seq<Id>)
    ensures InOrder(recs, Sorted(recs, ids)) && multiset(Sorted(recs, ids)) == multiset(ids)
  {
    if ids != [] {
      assert ids == [ids[0]] + ids[1..];
      SortedSorts(recs, ids[1..]);
      InsertSorts(recs, ids[0], Sorted(recs, ids[1..]));
    }
  }

  // ---------------------------------------------------------------------------
  // Steps of a writer
  // ---------------------------------------------------------------------------

  function Pushed(recs: seq<Rec>): set<Id> {
    set id | 0 <= id < |recs| && !recs[id].place.Fetched?
  }

  // `append` takes its sequence number.
  function Begin(s: State, data: seq<Byte>): State {
    s.(nextSeq := s.nextSeq + 1, recs := s.recs + [Rec(data, s.nextSeq, false, Fetched, false, Pushed(s.recs))])
  }

  // ... and pushes the record; from here on it may return.
  function Push(s: State, id: Id): State
    requires id < |s.recs|
  {
    s.(stack := [id] + s.stack, recs := s.recs[id := s.recs[id].(place := Stacked)])
  }

  // ---------------------------------------------------------------------------
  // Steps of the batcher
  // ---------------------------------------------------------------------------

  function Take(recs: seq<Rec>, ids: seq<Id>): seq<Rec> {
    seq(|recs|, id requires 0 <= id < |recs| => if id in ids then recs[id].(place := Logged) else recs[id])
  }

  function SwapStep(s: State): State
    requires s.pc.Swap?
  {
    if s.stack == [] then s.(pc := if s.pc.running then Top else Exited)
    else
      var batch := Sorted(s.recs, s.stack);
      s.(stack := [], batch := batch, recs := Take(s.recs, batch), log := s.log + batch,
         at := s.offset, offset := s.offset + |Bytes(s.recs, batch)|, pc := Write(s.pc.running, 0, 0))
  }

  // What one `write_at` did: `n` bytes, nothing, or an error.
  datatype Outcome = Wrote(n: nat) | Nothing | Error

  predicate Possible(s: State, o: Outcome)
    requires s.pc.Write?
  {
    o.Wrote? ==>
      s.pc.k < |s.batch| && s.batch[s.pc.k] < |s.recs| && 1 <= o.n <= |s.recs[s.batch[s.pc.k]].data| - s.pc.written
  }

  // `write_vectored` over `write_all_at`.
  function WriteStep(s: State, o: Outcome): State
    requires s.pc.Write? && Possible(s, o)
  {
    var k, done := s.pc.k, s.pc.written;
    if k >= |s.batch| || s.batch[k] >= |s.recs| then s.(pc := Signal(s.pc.running, 0))
    else
      var data := s.recs[s.batch[k]].data;
      if done >= |data| then
        s.(recs := s.recs[s.batch[k] := s.recs[s.batch[k]].(stored := true)], pc := Write(s.pc.running, k + 1, 0))
      else
        match o
        case Wrote(n) =>
          var pos := s.at + |Bytes(s.recs, s.batch[..k])| + done;
          s.(file := WriteAt(s.file, pos, data[done..done + n]), pc := Write(s.pc.running, k, done + n))
        case _ => s.(failed := true, pc := Signal(s.pc.running, 0))
  }

  function SignalStep(s: State): State
    requires s.pc.Signal?
  {
    var k := s.pc.k;
    if k >= |s.batch| || s.batch[k] >= |s.recs| then s.(pc := Check(s.pc.running))
    else s.(recs := s.recs[s.batch[k] := s.recs[s.batch[k]].(done := true)], pc := Signal(s.pc.running, k + 1))
  }

  datatype Step = Append(data: seq<Byte>) | Publish(id: Id) | Drop | Batch(o: Outcome)

  predicate Next(s: State, step: Step, s': State) {
    match step
    case Append(data) => s.running && s' == Begin(s, data)
    case Publish(id) => id < |s.recs| && s.recs[id].place.Fetched? && s' == Push(s, id)
    // `drop` has the handle to itself: no append is under way, and none follows.
    case Drop => s.running && (forall id :: 0 <= id < |s.recs| ==> !s.recs[id].place.Fetched?) &&
        s' == s.(running := false)
    case Batch(o) =>
      match s.pc
      case Top => s' == s.(pc := Swap(s.running))
      case Swap(_) => s' == SwapStep(s)
      case Write(_, _, _) => Possible(s, o) && s' == WriteStep(s, o)
      case Signal(_, _) => s' == SignalStep(s)
      case Check(running) => s' == s.(pc := if !running && s.stack == [] then Exited else Top)
      case Exited => false
  }

  predicate Init(s: State) {
    s == State(0, [], true, [], s.start, |s.start|, Top, [], 0, s.start, [], false)
  }

  // ---------------------------------------------------------------------------
  // Invariants
  // ---------------------------------------------------------------------------

  predicate NoRepeats(ids: seq<Id>) { forall a, b :: 0 <= a < b < |ids| ==> ids[a] != ids[b] }

  predicate At(recs: seq<Rec>, id: Id, p: Place) { id < |recs| && recs[id].place == p }

  // Every record is in exactly one place.
  predicate RecOk(s: State, id: Id)
    requires id < |s.recs|
  {
    var r := s.recs[id];
    && r.seqNo == id
    && (r.place.Stacked? ==> id in s.stack) && (r.place.Logged? ==> id in s.log)
    && (!r.place.Logged? ==> !r.done && !r.stored)
    && (forall a :: a in r.before ==> a < id && !s.recs[a].place.Fetched?)
  }

  ghost predicate PlacesOk(s: State) {
    && s.nextSeq == |s.recs| && NoRepeats(s.stack) && NoRepeats(s.log)
    && (forall k :: 0 <= k < |s.stack| ==> At(s.recs, s.stack[k], Stacked))
    && (forall k :: 0 <= k < |s.log| ==> At(s.recs, s.log[k], Logged))
    && (forall id {:trigger RecOk(s, id)} :: 0 <= id < |s.recs| ==> RecOk(s, id))
  }

  // Where in the log the current batch begins.
  function First(s: State): int { |s.log| - |s.batch| }

  predicate BatchIsTail(s: State) { |s.batch| <= |s.log| && s.log[|s.log| - |s.batch|..] == s.batch }

  predicate PcOk(s: State) {
    && BatchIsTail(s)
    && (s.pc.Write? ==> s.pc.k <= |s.batch|)
    && (s.pc.Write? ==> s.pc.written <= if s.pc.k < |s.batch| then |DataOf(s, s.batch[s.pc.k])| else 0)
    && (s.pc.Signal? ==> s.pc.k <= |s.batch|)
    && (s.pc.Exited? ==> s.stack == [] && !s.running)
    && ((s.pc.Swap? || s.pc.Write? || s.pc.Signal? || s.pc.Check?) && !s.pc.running ==> !s.running)
  }

  // A closed log has no append under way.
  ghost predicate ClosedOk(s: State) {
    !s.running ==> forall id {:trigger s.recs[id]} :: 0 <= id < |s.recs| ==> !s.recs[id].place.Fetched?
  }

  // What was pushed before an append began comes before it in the log.
  predicate EarlierLogged(s: State, j: nat)
    requires j < |s.log| && s.log[j] < |s.recs|
  {
    forall a :: a in s.recs[s.log[j]].before ==> a in s.log[..j]
  }

  ghost predicate OrderOk(s: State) {
    forall j {:trigger EarlierLogged(s, j)} :: 0 <= j < |s.log| && s.log[j] < |s.recs| ==> EarlierLogged(s, j)
  }

  // How much of the log is signalled.
  function Signalled(s: State): int {
    match s.pc
    case Write(_, _, _) => First(s)
    case Signal(_, k) => First(s) + k
    case _ => |s.log|
  }

  ghost predicate DoneOk(s: State) {
    && (forall j {:trigger s.log[j]} :: 0 <= j < |s.log| && s.log[j] < |s.recs| ==>
        (s.recs[s.log[j]].done <==> j < Signalled(s)))
    && (!s.failed ==> forall j {:trigger s.log[j]} :: 0 <= j < |s.log| && s.log[j] < |s.recs| ==>
          (s.recs[s.log[j]].stored <==> j < Flushed(s)))
    && (s.failed ==> exists j :: Lost(s, j))
  }

  // A record the batcher gave up on.
  predicate Lost(s: State, j: nat) {
    j < |s.log| && s.log[j] < |s.recs| && !s.recs[s.log[j]].stored && (s.pc.Write? ==> j < First(s))
  }

  // How many records of the log are completely in the file, and the part of the next one.
  function Flushed(s: State): int { if s.pc.Write? then First(s) + s.pc.k else |s.log| }

  function DataOf(s: State, id: Id): seq<Byte> { if id < |s.recs| then s.recs[id].data else [] }

  function Partial(s: State): seq<Byte> {
    if s.pc.Write? && s.pc.k < |s.batch| && s.pc.written <= |DataOf(s, s.batch[s.pc.k])|
    then DataOf(s, s.batch[s.pc.k])[..s.pc.written] else []
  }

  ghost predicate FileOk(s: State) {
    && 0 <= First(s) && 0 <= Flushed(s) <= |s.log|
    && s.offset == |s.start| + |Bytes(s.recs, s.log)|
    && (s.pc.Write? ==> s.at == |s.start| + |Bytes(s.recs, s.log[..First(s)])|)
    && (!s.failed ==> s.file == s.start + Bytes(s.recs, s.log[..Flushed(s)]) + Partial(s))
  }

  ghost predicate Inv(s: State) {
    PlacesOk(s) && PcOk(s) && ClosedOk(s) && OrderOk(s) && DoneOk(s) && FileOk(s)
  }

  // ---------------------------------------------------------------------------
  // Concatenation
  // ---------------------------------------------------------------------------

  lemma {:induction false} BytesSame(recs: seq<Rec>, recs': seq<Rec>, ids: seq<Id>)
    requires |recs| <= |recs'| && forall id {:trigger recs'[id]} :: 0 <= id < |recs| ==> recs'[id].data == recs[id].data
    requires forall k :: 0 <= k < |ids| ==> ids[k] < |recs|
    ensures Bytes(recs', ids) == Bytes(recs, ids)
  {
    if ids != [] { BytesSame(recs, recs', ids[..|ids| - 1]); }
  }

  lemma BytesLast(recs: seq<Rec>, ids: seq<Id>, id: Id)
    ensures Bytes(recs, ids + [id]) == Bytes(recs, ids) + (if id < |recs| then recs[id].data else [])
  {
    assert (ids + [id])[..|ids|] == ids;
  }

  lemma Associates(a: seq<Byte>, b: seq<Byte>, c: seq<Byte>)
    ensures a + (b + c) == (a + b) + c
  {
  }

  lemma {:induction false} BytesConcat(recs: seq<Rec>, a: seq<Id>, b: seq<Id>)
    ensures Bytes(recs, a + b) == Bytes(recs, a) + Bytes(recs, b)
  {
    if b == [] {
      assert a + b == a;
    } else {
      hide Bytes;
      var c, x := b[..|b| - 1], b[|b| - 1];
      assert b == c + [x] && a + b == (a + c) + [x];
      BytesConcat(recs, a, c);
      BytesLast(recs, c, x);
      BytesLast(recs, a + c, x);
      Associates(Bytes(recs, a), Bytes(recs, c), if x < |recs| then recs[x].data else []);
    }
  }

  lemma BytesOne(recs: seq<Rec>, ids: seq<Id>, k: nat)
    requires k < |ids|
    ensures Bytes(recs, ids[..k + 1]) == Bytes(recs, ids[..k]) + (if ids[k] < |recs| then recs[ids[k]].data else [])
  {
    assert ids[..k + 1][..k] == ids[..k];
  }

  // ---------------------------------------------------------------------------
  // Writers
  // ---------------------------------------------------------------------------

  // Records are added or pushed; the log, the batch and all data stay.
  ghost predicate WriterMoved(s: State, s': State) {
    && s'.log == s.log && s'.batch == s.batch && s'.pc == s.pc && s'.at == s.at && s'.offset == s.offset
    && s'.file == s.file && s'.start == s.start && s'.failed == s.failed
    && |s.recs| <= |s'.recs|
    && forall id {:trigger s'.recs[id]} :: 0 <= id < |s.recs| ==>
         s'.recs[id] == s.recs[id].(place := s'.recs[id].place)
  }

  lemma WriterKeepsFile(s: State, s': State)
    requires Inv(s) && WriterMoved(s, s')
    ensures FileOk(s') && DoneOk(s') && OrderOk(s')
  {
    hide Bytes;
    assert forall k :: 0 <= k < |s.log| ==> s.log[k] < |s.recs| by { assert PlacesOk(s); }
    BytesSame(s.recs, s'.recs, s.log);
    BytesSame(s.recs, s'.recs, s.log[..First(s)]);
    BytesSame(s.recs, s'.recs, s.log[..Flushed(s)]);
    assert s.pc.Write? && s.pc.k < |s.batch| ==> s.batch[s.pc.k] == s.log[First(s) + s.pc.k];
    if s.failed {
      var j :| Lost(s, j);
      assert Lost(s', j);
    }
    forall j | 0 <= j < |s'.log| && s'.log[j] < |s'.recs|
      ensures EarlierLogged(s', j)
    {
      assert EarlierLogged(s, j);
    }
  }

  lemma AppendKeeps(s: State, data: seq<Byte>)
    requires Inv(s) && s.running
    ensures Inv(Begin(s, data))
  {
    hide FileOk, DoneOk, OrderOk;
    var s' := Begin(s, data);
    WriterKeepsFile(s, s');
    forall id | 0 <= id < |s'.recs|
      ensures RecOk(s', id)
    {
      assert id < |s.recs| ==> RecOk(s, id);
    }
    SameTail(s, s');
  }

  lemma SameTail(s: State, s': State)
    requires PlacesOk(s) && PcOk(s) && WriterMoved(s, s')
    ensures s.pc.Write? && s.pc.k < |s.batch| ==> DataOf(s', s.batch[s.pc.k]) == DataOf(s, s.batch[s.pc.k])
  {
    assert s.pc.Write? && s.pc.k < |s.batch| ==> s.batch[s.pc.k] == s.log[|s.log| - |s.batch| + s.pc.k];
  }

  lemma PublishKeeps(s: State, id: Id)
    requires Inv(s) && id < |s.recs| && s.recs[id].place.Fetched?
    ensures Inv(Push(s, id))
  {
    hide FileOk, DoneOk, OrderOk;
    var s' := Push(s, id);
    WriterKeepsFile(s, s');
    forall x | 0 <= x < |s'.recs|
      ensures RecOk(s', x)
    {
      assert RecOk(s, x);
    }
    SameTail(s, s');
    assert NoRepeats(s'.stack);
    assert s.running;
  }

  lemma DropKeeps(s: State)
    requires Inv(s) && s.running && forall id :: 0 <= id < |s.recs| ==> !s.recs[id].place.Fetched?
    ensures Inv(s.(running := false))
  {
    hide FileOk, DoneOk, OrderOk;
    var s' := s.(running := false);
    WriterKeepsFile(s, s');
    forall x | 0 <= x < |s'.recs|
      ensures RecOk(s', x)
    {
      assert RecOk(s, x);
    }
  }

  // ---------------------------------------------------------------------------
  // The batcher takes a batch
  // ---------------------------------------------------------------------------

  // The swapped batch: a permutation of the stack, in submission order.
  ghost predicate Took(s: State, s': State) {
    && InOrder(s.recs, s'.batch) && multiset(s'.batch) == multiset(s.stack)
    && s'.stack == [] && s'.recs == Take(s.recs, s'.batch) && s'.log == s.log + s'.batch
    && s'.nextSeq == s.nextSeq && s'.running == s.running && s'.file == s.file && s'.start == s.start &&
        s'.failed == s.failed
    && s'.at == s.offset && s'.offset == s.offset + |Bytes(s.recs, s'.batch)|
  }

  lemma TakenOnce(s: State, s': State)
    requires PlacesOk(s) && Took(s, s')
    ensures NoRepeats(s'.batch) && forall x :: x in s'.batch <==> x in s.stack
    ensures forall x :: x in s'.batch ==> At(s.recs, x, Stacked)
  {
    forall x
      ensures x in s'.batch <==> x in s.stack
    {
      assert x in multiset(s'.batch) <==> x in multiset(s.stack);
    }
    SameCount(s.stack, s'.batch);
  }

  lemma {:induction false} CountOne(ids: seq<Id>, x: Id)
    requires NoRepeats(ids)
    ensures multiset(ids)[x] <= 1
  {
    if ids != [] {
      assert ids == [ids[0]] + ids[1..];
      CountOne(ids[1..], x);
      assert ids[0] !in ids[1..];
    }
  }

  lemma SameCount(a: seq<Id>, b: seq<Id>)
    requires NoRepeats(a) && multiset(a) == multiset(b)
    ensures NoRepeats(b)
  {
    forall i, j | 0 <= i < j < |b|
      ensures b[i] != b[j]
    {
      CountOne(a, b[i]);
      assert b == b[..i] + [b[i]] + b[i + 1..j] + [b[j]] + b[j + 1..];
    }
  }

  // One swap takes everything pushed so far, and restores submission order.
  lemma SwapTakesAll(s: State)
    requires s.pc.Swap? && s.stack != []
    ensures
      var s' := SwapStep(s);
      && s'.stack == [] && s'.log == s.log + s'.batch
      && multiset(s'.batch) == multiset(s.stack) && InOrder(s.recs, s'.batch)
  {
    hide Bytes, Sorted;
    SortedSorts(s.recs, s.stack);
  }

  lemma TakePlaces(s: State, s': State)
    requires Inv(s) && Took(s, s')
    ensures PlacesOk(s') && ClosedOk(s')
  {
    hide FileOk, DoneOk, OrderOk, PcOk, Bytes;
    TakenOnce(s, s');
    forall id | 0 <= id < |s'.recs|
      ensures RecOk(s', id)
    {
      assert RecOk(s, id);
    }
    forall k | 0 <= k < |s'.log|
      ensures At(s'.recs, s'.log[k], Logged)
    {
      if k < |s.log| { assert At(s.recs, s.log[k], Logged); } else { assert s'.log[k] in s'.batch; }
    }
    forall a, b | 0 <= a < b < |s'.log|
      ensures s'.log[a] != s'.log[b]
    {
      if a < |s.log| <= b {
        assert At(s.recs, s.log[a], Logged) && s'.log[b] in s'.batch;
      }
    }
  }

  // Records of one batch are in submission order, and older batches come first.
  lemma TakeOrder(s: State, s': State)
    requires Inv(s) && Took(s, s')
    ensures OrderOk(s')
  {
    hide FileOk, DoneOk, PcOk, Bytes;
    TakenOnce(s, s');
    forall j | 0 <= j < |s'.log| && s'.log[j] < |s'.recs|
      ensures EarlierLogged(s', j)
    {
      var id := s'.log[j];
      assert RecOk(s, id);
      forall a | a in s'.recs[id].before
        ensures a in s'.log[..j]
      {
        if j < |s.log| {
          assert EarlierLogged(s, j);
          assert s'.log[..j] == s.log[..j];
        } else {
          assert RecOk(s, a);
          if a in s.log {
            assert s.log == s'.log[..j][..|s.log|];
          } else {
            TakeBefore(s, s', j, a);
          }
        }
      }
    }
  }

  lemma TakeBefore(s: State, s': State, j: nat, a: Id)
    requires PlacesOk(s) && Took(s, s') && |s.log| <= j < |s'.log| && a in s'.batch
    requires a < s'.log[j] < |s.recs|
    ensures a in s'.log[..j]
  {
    hide Bytes;
    var i :| 0 <= i < |s'.batch| && s'.batch[i] == a;
    var j' := j - |s.log|;
    assert RecOk(s, a) && RecOk(s, s'.batch[j']);
    assert i < j';
    assert s'.log[..j][|s.log| + i] == a;
  }

  lemma SwapKeeps(s: State)
    requires Inv(s) && s.pc.Swap?
    ensures Inv(SwapStep(s))
  {
    hide Bytes, RecOk, NoRepeats;
    var s' := SwapStep(s);
    if s.stack == [] {
      StandStill(s, s');
    } else {
      SortedSorts(s.recs, s.stack);
      TakePlaces(s, s');
      TakeOrder(s, s');
      TakeFile(s, s');
      TakeDone(s, s');
    }
  }

  lemma TakeBytes(s: State, s': State)
    requires PlacesOk(s) && Took(s, s')
    ensures Bytes(s'.recs, s'.log) == Bytes(s.recs, s.log) + Bytes(s.recs, s'.batch)
    ensures Bytes(s'.recs, s.log) == Bytes(s.recs, s.log)
  {
    hide Bytes, RecOk, NoRepeats;
    BytesSame(s.recs, s'.recs, s.log);
    BytesConcat(s'.recs, s.log, s'.batch);
    TakenOnce(s, s');
    assert forall k :: 0 <= k < |s'.batch| ==> s'.batch[k] in s'.batch;
    BytesSame(s.recs, s'.recs, s'.batch);
  }

  lemma TakeFile(s: State, s': State)
    requires PlacesOk(s) && FileOk(s) && Took(s, s') && !s.pc.Write? && !s.pc.Signal?
    requires s'.pc.Write? && s'.pc.k == 0 && s'.pc.written == 0 && (s'.pc.running || !s.running)
    ensures FileOk(s') && PcOk(s')
  {
    hide Bytes, RecOk, NoRepeats, PlacesOk, Take, InOrder;
    TakeBytes(s, s');
    assert s'.log[..|s.log|] == s.log && s.log[..|s.log|] == s.log;
    assert Partial(s') == [] && Partial(s) == [];
    assert s'.log[|s.log|..] == s'.batch;
  }

  lemma TakeDone(s: State, s': State)
    requires Inv(s) && Took(s, s') && !s.pc.Write? && !s.pc.Signal?
    requires s'.pc.Write? && s'.pc.k == 0 && s'.pc.written == 0
    ensures DoneOk(s')
  {
    hide Bytes, RecOk, NoRepeats, OrderOk, FileOk, ClosedOk;
    TakenOnce(s, s');
    forall j | 0 <= j < |s'.log| && s'.log[j] < |s'.recs|
      ensures s'.recs[s'.log[j]].done <==> j < |s.log|
      ensures !s.failed ==> (s'.recs[s'.log[j]].stored <==> j < |s.log|)
    {
      if j < |s.log| {
        assert s'.log[j] == s.log[j];
      } else {
        assert RecFlags(s, s'.log[j]) by { TakenFlags(s, s', s'.log[j]); }
      }
    }
    if s.failed {
      var j :| Lost(s, j);
      assert Lost(s', j);
    }
  }

  predicate RecFlags(s: State, id: Id) { id < |s.recs| && !s.recs[id].done && !s.recs[id].stored }

  lemma TakenFlags(s: State, s': State, id: Id)
    requires PlacesOk(s) && Took(s, s') && id in s'.batch
    ensures RecFlags(s, id)
  {
    TakenOnce(s, s');
    assert RecOk(s, id);
  }

  // The batcher moves on without touching anything.
  lemma StandStill(s: State, s': State)
    requires Inv(s) && s' == s.(pc := s'.pc) && PcOk(s')
    requires !s.pc.Write? && !s.pc.Signal? && !s'.pc.Write? && !s'.pc.Signal?
    ensures Inv(s')
  {
    hide Bytes, NoRepeats;
    forall id | 0 <= id < |s'.recs| ensures RecOk(s', id) { assert RecOk(s, id); }
    forall j | 0 <= j < |s'.log| && s'.log[j] < |s'.recs| ensures EarlierLogged(s', j) { assert EarlierLogged(s, j); }
    if s.failed {
      var j :| Lost(s, j);
      assert Lost(s', j);
    }
  }

  // ---------------------------------------------------------------------------
  // The batcher writes and signals
  // ---------------------------------------------------------------------------

  // Flags of one logged record change, nothing else of the records does.
  ghost predicate Flagged(s: State, s': State) {
    && s'.nextSeq == s.nextSeq && s'.stack == s.stack && s'.running == s.running && s'.log == s.log
    && s'.start == s.start && s'.offset == s.offset && s'.batch == s.batch && s'.at == s.at
    && |s'.recs| == |s.recs|
    && forall id {:trigger s'.recs[id]} :: 0 <= id < |s.recs| ==>
         && s'.recs[id] == s.recs[id].(done := s'.recs[id].done, stored := s'.recs[id].stored)
         && (!s.recs[id].place.Logged? ==> s'.recs[id] == s.recs[id])
  }

  lemma FlagsKeepPlaces(s: State, s': State)
    requires PlacesOk(s) && ClosedOk(s) && OrderOk(s) && Flagged(s, s')
    ensures PlacesOk(s') && ClosedOk(s') && OrderOk(s')
  {
    forall id | 0 <= id < |s'.recs| ensures RecOk(s', id) { assert RecOk(s, id); }
    forall j | 0 <= j < |s'.log| && s'.log[j] < |s'.recs| ensures EarlierLogged(s', j) { assert EarlierLogged(s, j); }
  }

  lemma FlagsKeepBytes(s: State, s': State, n: nat)
    requires PlacesOk(s) && Flagged(s, s') && n <= |s.log|
    ensures Bytes(s'.recs, s.log[..n]) == Bytes(s.recs, s.log[..n]) && Bytes(s'.recs, s.log) == Bytes(s.recs, s.log)
  {
    BytesSame(s.recs, s'.recs, s.log[..n]);
    BytesSame(s.recs, s'.recs, s.log);
  }

  // The record being written is the next one of the log.
  lemma NextRecord(s: State, k: nat)
    requires PlacesOk(s) && BatchIsTail(s) && k < |s.batch|
    ensures First(s) + k < |s.log| && s.batch[k] == s.log[First(s) + k] && At(s.recs, s.batch[k], Logged)
    ensures forall j {:trigger s.log[j]} :: 0 <= j < |s.log| && s.log[j] == s.batch[k] ==> j == First(s) + k
    ensures Bytes(s.recs, s.log[..First(s) + k + 1]) == Bytes(s.recs, s.log[..First(s) + k]) + s.recs[s.batch[k]].data
    ensures |Bytes(s.recs, s.log[..First(s) + k])| == |Bytes(s.recs, s.log[..First(s)])| + |Bytes(s.recs, s.batch[..k])|
  {
    hide Bytes, RecOk;
    var f := First(s);
    assert s.batch[k] == s.log[f + k];
    assert At(s.recs, s.log[f + k], Logged);
    BytesOne(s.recs, s.log, f + k);
    assert s.log[..f + k] == s.log[..f] + s.batch[..k];
    BytesConcat(s.recs, s.log[..f], s.batch[..k]);
  }

  lemma FinishSlice(s: State, s': State)
    requires Inv(s) && s.pc.Write? && s.pc.k < |s.batch| && s.batch[s.pc.k] < |s.recs|
    requires s.pc.written == |s.recs[s.batch[s.pc.k]].data|
    requires s' == s.(recs := s.recs[s.batch[s.pc.k] := s.recs[s.batch[s.pc.k]].(stored := true)],
                      pc := Write(s.pc.running, s.pc.k + 1, 0))
    ensures Inv(s')
  {
    hide Bytes, RecOk, NoRepeats, EarlierLogged;
    var k := s.pc.k;
    NextRecord(s, k);
    assert Flagged(s, s');
    FlagsKeepPlaces(s, s');
    FlagsKeepBytes(s, s', First(s) + k + 1);
    FlagsKeepBytes(s, s', First(s));
    if s.failed {
      var j :| Lost(s, j);
      assert Lost(s', j);
    }
    FinishFile(s, s');
  }

  lemma FinishFile(s: State, s': State)
    requires Inv(s) && s.pc.Write? && s.pc.k < |s.batch| && s.batch[s.pc.k] < |s.recs|
    requires s.pc.written == |s.recs[s.batch[s.pc.k]].data| && Flagged(s, s')
    requires s'.pc == Write(s.pc.running, s.pc.k + 1, 0) && s'.failed == s.failed && s'.file == s.file
    ensures FileOk(s')
  {
    hide Bytes, RecOk, NoRepeats, EarlierLogged, DoneOk, OrderOk, ClosedOk;
    var k := s.pc.k;
    NextRecord(s, k);
    FlagsKeepBytes(s, s', First(s) + k + 1);
    FlagsKeepBytes(s, s', First(s));
    var data := s.recs[s.batch[k]].data;
    assert data[..|data|] == data;
  }

  lemma WroteMore(f: seq<Byte>, prefix: seq<Byte>, data: seq<Byte>, done: nat, n: nat)
    requires done + n <= |data| && f == prefix + data[..done]
    ensures WriteAt(f, |f|, data[done..done + n]) == prefix + data[..done + n]
  {
    assert data[..done] + data[done..done + n] == data[..done + n];
  }

  lemma WroteSome(s: State, s': State, n: nat)
    requires Inv(s) && s.pc.Write? && Possible(s, Wrote(n)) && s' == WriteStep(s, Wrote(n))
    requires s.pc.written < |s.recs[s.batch[s.pc.k]].data|
    ensures Inv(s')
  {
    hide Bytes, RecOk, NoRepeats, EarlierLogged, WriteAt;
    FlagsKeepPlaces(s, s');
    if s.failed {
      var j :| Lost(s, j);
      assert Lost(s', j);
    }
    WroteFile(s, s', n);
  }

  lemma WroteFile(s: State, s': State, n: nat)
    requires Inv(s) && s.pc.Write? && Possible(s, Wrote(n)) && s' == WriteStep(s, Wrote(n))
    requires s.pc.written < |s.recs[s.batch[s.pc.k]].data|
    ensures FileOk(s')
  {
    hide Bytes, RecOk, NoRepeats, EarlierLogged, DoneOk, OrderOk, ClosedOk, WriteAt;
    var k, done := s.pc.k, s.pc.written;
    NextRecord(s, k);
    var data := s.recs[s.batch[k]].data;
    if !s.failed {
      WroteMore(s.file, s.start + Bytes(s.recs, s.log[..First(s) + k]), data, done, n);
    }
  }

  // The write stops with an error; the rest of the batch is given up.
  lemma GaveUp(s: State, s': State)
    requires Inv(s) && s.pc.Write? && s.pc.k < |s.batch| && s.batch[s.pc.k] < |s.recs|
    requires s' == s.(failed := true, pc := Signal(s.pc.running, 0))
    ensures Inv(s')
  {
    hide Bytes, RecOk, NoRepeats, EarlierLogged;
    NextRecord(s, s.pc.k);
    FlagsKeepPlaces(s, s');
    if s.failed {
      var j :| Lost(s, j);
      assert Lost(s', j);
    } else {
      assert Lost(s', First(s) + s.pc.k);
    }
  }

  lemma BatchInRange(s: State, k: nat)
    requires PlacesOk(s) && BatchIsTail(s) && k < |s.batch|
    ensures s.batch[k] < |s.recs|
  {
    NextRecord(s, k);
  }

  lemma WriteEnds(s: State, s': State)
    requires Inv(s) && s.pc.Write? && s.pc.k == |s.batch| && s' == s.(pc := Signal(s.pc.running, 0))
    ensures Inv(s')
  {
    hide Bytes, RecOk, NoRepeats, EarlierLogged;
    FlagsKeepPlaces(s, s');
    if s.failed {
      var j :| Lost(s, j);
      assert Lost(s', j);
    }
  }

  lemma WriteKeeps(s: State, o: Outcome)
    requires Inv(s) && s.pc.Write? && Possible(s, o)
    ensures Inv(WriteStep(s, o))
  {
    hide FileOk, DoneOk, OrderOk, RecOk, NoRepeats, ClosedOk;
    var s' := WriteStep(s, o);
    if s.pc.k == |s.batch| {
      WriteEnds(s, s');
    } else {
      BatchInRange(s, s.pc.k);
      if s.pc.written == |s.recs[s.batch[s.pc.k]].data| {
        FinishSlice(s, s');
      } else if o.Wrote? {
        WroteSome(s, s', o.n);
      } else {
        GaveUp(s, s');
      }
    }
  }

  lemma SignalKeeps(s: State)
    requires Inv(s) && s.pc.Signal?
    ensures Inv(SignalStep(s))
  {
    hide Bytes, RecOk, NoRepeats, EarlierLogged, DoneOk, FileOk;
    var s' := SignalStep(s);
    if s.pc.k < |s.batch| { NextRecord(s, s.pc.k); }
    assert Flagged(s, s');
    FlagsKeepPlaces(s, s');
    SignalFile(s, s');
    SignalDone(s, s');
  }

  lemma SignalFile(s: State, s': State)
    requires PlacesOk(s) && FileOk(s) && Flagged(s, s') && s'.file == s.file && s'.failed == s.failed
    requires !s.pc.Write? && !s'.pc.Write?
    ensures FileOk(s')
  {
    hide Bytes, RecOk, NoRepeats;
    FlagsKeepBytes(s, s', |s.log|);
  }

  lemma SignalDone(s: State, s': State)
    requires PlacesOk(s) && PcOk(s) && DoneOk(s) && s.pc.Signal? && s' == SignalStep(s)
    ensures DoneOk(s')
  {
    hide Bytes, RecOk, NoRepeats, Lost;
    if s.pc.k < |s.batch| { NextRecord(s, s.pc.k); }
    if s.failed {
      var j :| Lost(s, j);
      SignalLost(s, s', j);
    }
  }

  lemma SignalLost(s: State, s': State, j: nat)
    requires s.pc.Signal? && s' == SignalStep(s) && Lost(s, j)
    ensures Lost(s', j)
  {
  }

  lemma StepKeepsInv(s: State, step: Step, s': State)
    requires Inv(s) && Next(s, step, s')
    ensures Inv(s')
  {
    hide PlacesOk, ClosedOk, OrderOk, DoneOk, FileOk;
    match step {
      case Append(data) => AppendKeeps(s, data);
      case Publish(id) => PublishKeeps(s, id);
      case Drop => DropKeeps(s);
      case Batch(o) =>
        match s.pc {
          case Top => StandStill(s, s');
          case Swap(_) => SwapKeeps(s);
          case Write(_, _, _) => WriteKeeps(s, o);
          case Signal(_, _) => SignalKeeps(s);
          case Check(_) => StandStill(s, s');
          case Exited =>
        }
    }
  }

  // ---------------------------------------------------------------------------
  // Runs
  // ---------------------------------------------------------------------------

  predicate StepAt(states: seq<State>, steps: seq<Step>, k: nat) {
    k < |steps| && k + 1 < |states| && Next(states[k], steps[k], states[k + 1])
  }

  predicate Run(states: seq<State>, steps: seq<Step>) {
    && |states| == |steps| + 1 && Init(states[0])
    && forall k {:trigger StepAt(states, steps, k)} :: 0 <= k < |steps| ==> StepAt(states, steps, k)
  }

  lemma {:induction false} AlwaysInv(states: seq<State>, steps: seq<Step>, k: nat)
    requires Run(states, steps) && k < |states|
    ensures Inv(states[k])
  {
    hide Inv, Next;
    if k == 0 {
      InitInv(states[0]);
    } else {
      AlwaysInv(states, steps, k - 1);
      assert StepAt(states, steps, k - 1);
      StepKeepsInv(states[k - 1], steps[k - 1], states[k]);
    }
  }

  lemma InitInv(s: State)
    requires Init(s)
    ensures Inv(s)
  {
  }

  // ---------------------------------------------------------------------------
  // What the file holds
  // ---------------------------------------------------------------------------

  // Until a write fails, the file is its old contents, then the logged records
  // one after the other, each once and without gaps, then a part of the next.
  lemma FileIsLog(states: seq<State>, steps: seq<Step>, k: nat)
    requires Run(states, steps) && k < |states| && !states[k].failed
    ensures
      var s := states[k];
      && 0 <= Flushed(s) <= |s.log| && NoRepeats(s.log)
      && s.file == s.start + Bytes(s.recs, s.log[..Flushed(s)]) + Partial(s)
      && (Partial(s) != [] ==> Flushed(s) < |s.log| && Partial(s) <= DataOf(s, s.log[Flushed(s)]))
  {
    hide Bytes, RecOk, EarlierLogged, Init, Next;
    AlwaysInv(states, steps, k);
    var s := states[k];
    if s.pc.Write? && s.pc.k < |s.batch| { NextRecord(s, s.pc.k); }
  }

  lemma {:induction false} BytesAt(recs: seq<Rec>, ids: seq<Id>, j: nat)
    requires j < |ids| && ids[j] < |recs|
    ensures
      var o, d := |Bytes(recs, ids[..j])|, recs[ids[j]].data;
      o + |d| <= |Bytes(recs, ids)| && Bytes(recs, ids)[o..o + |d|] == d
  {
    var d := recs[ids[j]].data;
    assert ids == ids[..j + 1] + ids[j + 1..];
    BytesConcat(recs, ids[..j + 1], ids[j + 1..]);
    BytesOne(recs, ids, j);
  }

  // A completed record is in the file, at its place in the log.
  lemma DoneMeansWritten(states: seq<State>, steps: seq<Step>, k: nat, id: Id) returns (j: nat)
    requires Run(states, steps) && k < |states| && !states[k].failed
    requires id < |states[k].recs| && states[k].recs[id].done
    ensures
      var s := states[k];
      && j < |s.log| && s.log[j] == id
      && var o := |s.start| + |Bytes(s.recs, s.log[..j])|;
         o + |s.recs[id].data| <= |s.file| && s.file[o..o + |s.recs[id].data|] == s.recs[id].data
  {
    hide Bytes, NoRepeats, EarlierLogged, Init, Next;
    AlwaysInv(states, steps, k);
    var s := states[k];
    assert RecOk(s, id);
    j :| 0 <= j < |s.log| && s.log[j] == id;
    var pre := s.log[..Flushed(s)];
    assert pre[..j] == s.log[..j];
    BytesAt(s.recs, pre, j);
    Inside(s.start, Bytes(s.recs, pre), Partial(s), |Bytes(s.recs, pre[..j])|, |s.recs[id].data|);
  }

  lemma Inside(a: seq<Byte>, b: seq<Byte>, c: seq<Byte>, o: nat, n: nat)
    requires o + n <= |b|
    ensures (a + b + c)[|a| + o..|a| + o + n] == b[o..o + n]
  {
  }

  // One record, one failing write: the writer is told it is durable, the file is empty.
  lemma FailureLosesRecord() returns (states: seq<State>, steps: seq<Step>)
    ensures Run(states, steps)
    ensures
      var s := states[|states| - 1];
      |s.recs| == 1 && s.recs[0].done && s.recs[0].data == [7] && s.file == []
  {
    var s0 := State(0, [], true, [], [], 0, Top, [], 0, [], [], false);
    var s1 := Begin(s0, [7]);
    var s2 := Push(s1, 0);
    var s3 := s2.(pc := Swap(true));
    var s4 := SwapStep(s3);
    assert Sorted(s3.recs, [0]) == [0];
    var s5 := WriteStep(s4, Error);
    var s6 := SignalStep(s5);
    states := [s0, s1, s2, s3, s4, s5, s6];
    steps := [Append([7]), Publish(0), Batch(Error), Batch(Error), Batch(Error), Batch(Error)];
    assert StepAt(states, steps, 0) && StepAt(states, steps, 1) && StepAt(states, steps, 2);
    assert StepAt(states, steps, 3) && StepAt(states, steps, 4) && StepAt(states, steps, 5);
  }

  // ---------------------------------------------------------------------------
  // Real-time order
  // ---------------------------------------------------------------------------

  lemma StepGrows(s: State, step: Step, s': State)
    requires Next(s, step, s')
    ensures |s.recs| <= |s'.recs|
    ensures forall id {:trigger s'.recs[id]} :: 0 <= id < |s.recs| ==>
      s'.recs[id].before == s.recs[id].before && (s'.recs[id].place.Fetched? ==> s.recs[id].place.Fetched?)
    ensures forall id {:trigger s'.recs[id]} :: |s.recs| <= id < |s'.recs| ==> s'.recs[id].before == Pushed(s.recs)
  {
    hide Bytes, Sorted, WriteAt;
  }

  lemma {:induction false} LaterAppendsKnow(states: seq<State>, steps: seq<Step>, a: nat, b: nat, x: Id, y: Id)
    requires Run(states, steps) && a <= b < |states|
    requires x < |states[a].recs| <= y < |states[b].recs| && !states[a].recs[x].place.Fetched?
    ensures x in states[b].recs[y].before
    decreases b
  {
    hide Next, Init;
    if a < b {
      StillPushed(states, steps, a, b - 1, x);
      assert StepAt(states, steps, b - 1);
      StepGrows(states[b - 1], steps[b - 1], states[b]);
      if y < |states[b - 1].recs| {
        LaterAppendsKnow(states, steps, a, b - 1, x, y);
        assert states[b].recs[y].before == states[b - 1].recs[y].before;
      }
    }
  }

  lemma {:induction false} StillPushed(states: seq<State>, steps: seq<Step>, a: nat, b: nat, x: Id)
    requires Run(states, steps) && a <= b < |states| && x < |states[a].recs| && !states[a].recs[x].place.Fetched?
    ensures x < |states[b].recs| && !states[b].recs[x].place.Fetched?
    decreases b
  {
    hide Next, Init;
    if a < b {
      StillPushed(states, steps, a, b - 1, x);
      assert StepAt(states, steps, b - 1);
      StepGrows(states[b - 1], steps[b - 1], states[b]);
    }
  }

  // An append that had pushed before another began precedes it in the file,
  // whatever batches they end up in.
  lemma AppendOrder(states: seq<State>, steps: seq<Step>, a: nat, b: nat, x: Id, y: Id, j: nat) returns (i: nat)
    requires Run(states, steps) && a <= b < |states|
    requires x < |states[a].recs| <= y < |states[b].recs| && !states[a].recs[x].place.Fetched?
    requires j < |states[b].log| && states[b].log[j] == y
    ensures i < j && states[b].log[i] == x
  {
    hide Next, Init, PlacesOk, DoneOk, FileOk;
    AlwaysInv(states, steps, b);
    LaterAppendsKnow(states, steps, a, b, x, y);
    assert EarlierLogged(states[b], j);
    i :| 0 <= i < j && states[b].log[..j][i] == x;
  }

  // ---------------------------------------------------------------------------
  // Shutdown
  // ---------------------------------------------------------------------------

  // When the batcher has exited, every record ever appended is in the log and
  // has been signalled, and unless a write failed the file is complete.
  lemma ExitFlushesAll(states: seq<State>, steps: seq<Step>, k: nat)
    requires Run(states, steps) && k < |states| && states[k].pc.Exited?
    ensures
      var s := states[k];
      && (forall id :: 0 <= id < |s.recs| ==> id in s.log && s.recs[id].done)
      && (!s.failed ==> s.file == s.start + Bytes(s.recs, s.log))
  {
    hide Next, Init, OrderOk, Bytes, NoRepeats;
    AlwaysInv(states, steps, k);
    var s := states[k];
    forall id | 0 <= id < |s.recs|
      ensures id in s.log && s.recs[id].done
    {
      assert RecOk(s, id);
      var j :| 0 <= j < |s.log| && s.log[j] == id;
    }
    assert s.log[..|s.log|] == s.log;
  }

  // What a record costs the batcher: a step for each byte, one to finish it and one to signal it.
  function Cost(recs: seq<Rec>, ids: seq<Id>): nat {
    if ids == [] then 0 else (if ids[0] < |recs| then |recs[ids[0]].data| else 0) + 2 + Cost(recs, ids[1..])
  }

  lemma {:induction false} InsertCost(recs: seq<Rec>, id: Id, ids: seq<Id>)
    ensures Cost(recs, Insert(recs, id, ids)) == Cost(recs, [id]) + Cost(recs, ids)
  {
    assert ([id] + ids)[1..] == ids && [id][1..] == [];
    if ids != [] && SeqNo(recs, id) > SeqNo(recs, ids[0]) {
      InsertCost(recs, id, ids[1..]);
      var r := Insert(recs, id, ids);
      assert r[1..] == Insert(recs, id, ids[1..]);
    }
  }

  lemma {:induction false} SortedCost(recs: seq<Rec>, ids: seq<Id>)
    ensures Cost(recs, Sorted(recs, ids)) == Cost(recs, ids)
  {
    if ids != [] {
      SortedCost(recs, ids[1..]);
      InsertCost(recs, ids[0], Sorted(recs, ids[1..]));
      assert [ids[0]][1..] == [];
    }
  }

  lemma {:induction false} SameCost(recs: seq<Rec>, recs': seq<Rec>, ids: seq<Id>)
    requires |recs'| == |recs| && forall id {:trigger recs'[id]} :: 0 <= id < |recs| ==> recs'[id].data == recs[id].data
    ensures Cost(recs', ids) == Cost(recs, ids)
  {
    if ids != [] { SameCost(recs, recs', ids[1..]); }
  }

  function Backlog(s: State): nat { if s.stack == [] then 0 else Cost(s.recs, s.stack) + 9 }

  // Steps the batcher has left once the log is closed.
  function Left(s: State): int {
    match s.pc
    case Top => 2 + Backlog(s)
    case Swap(running) => (if running then 3 else 1) + Backlog(s)
    case Write(_, k, w) => (if k <= |s.batch| then Cost(s.recs, s.batch[k..]) else 0) - w + k + 5 + Backlog(s)
    case Signal(_, k) => |s.batch| - k + 4 + Backlog(s)
    case Check(_) => 3 + Backlog(s)
    case Exited => 0
  }

  lemma {:induction false} CostAtLeast(recs: seq<Rec>, ids: seq<Id>)
    ensures Cost(recs, ids) >= 2 * |ids|
  {
    if ids != [] { CostAtLeast(recs, ids[1..]); }
  }

  lemma LeftDrops(s: State, step: Step, s': State)
    requires Inv(s) && !s.running && Next(s, step, s')
    ensures !s'.running && 0 <= Left(s') < Left(s)
  {
    hide OrderOk, DoneOk, FileOk, RecOk, NoRepeats, Bytes, Sorted, WriteAt, Cost;
    match s.pc {
      case Write(_, k, _) => WriteLeft(s, step.o);
      case Signal(_, k) =>
        SameCost(s.recs, s'.recs, s.stack);
      case Swap(_) => SwapLeft(s);
      case _ =>
    }
  }

  lemma SwapLeft(s: State)
    requires Inv(s) && !s.running && s.pc.Swap?
    ensures 0 <= Left(SwapStep(s)) < Left(s)
  {
    hide OrderOk, DoneOk, FileOk, RecOk, NoRepeats, Bytes, Sorted, Cost;
    var s' := SwapStep(s);
    if s.stack != [] {
      SortedCost(s.recs, s.stack);
      SameCost(s.recs, s'.recs, s'.batch);
      assert s'.batch[0..] == s'.batch;
    }
  }

  lemma WriteLeft(s: State, o: Outcome)
    requires Inv(s) && !s.running && s.pc.Write? && Possible(s, o)
    ensures 0 <= Left(WriteStep(s, o)) < Left(s)
  {
    hide OrderOk, DoneOk, FileOk, RecOk, NoRepeats, Bytes, WriteAt;
    var s' := WriteStep(s, o);
    var k := s.pc.k;
    CostAtLeast(s.recs, s.batch[k..]);
    SameCost(s.recs, s'.recs, s.stack);
    if k < |s.batch| {
      BatchInRange(s, k);
      assert s.batch[k..][1..] == s.batch[k + 1..];
      CostAtLeast(s.recs, s.batch[k + 1..]);
      SameCost(s.recs, s'.recs, s.batch[k + 1..]);
    }
  }

  // Until it has exited the batcher has a step, whatever the write returns.
  lemma BatcherMoves(s: State, o: Outcome)
    requires Inv(s) && !s.pc.Exited? && (s.pc.Write? ==> Possible(s, o))
    ensures exists s' :: Next(s, Batch(o), s')
  {
    hide Inv, SwapStep, WriteStep, SignalStep;
    match s.pc {
      case Top => assert Next(s, Batch(o), s.(pc := Swap(s.running)));
      case Swap(_) => assert Next(s, Batch(o), SwapStep(s));
      case Write(_, _, _) => assert Next(s, Batch(o), WriteStep(s, o));
      case Signal(_, _) => assert Next(s, Batch(o), SignalStep(s));
      case Check(running) =>
        assert Next(s, Batch(o), s.(pc := if !running && s.stack == [] then Exited else Top));
      case Exited =>
    }
  }

  // After `drop` the batcher exits: no run goes on for longer than the backlog
  // takes, and a run that has not exited can go on.
  lemma {:induction false} DropTerminates(states: seq<State>, steps: seq<Step>, k: nat)
    requires Run(states, steps) && k < |states| && !states[k].running
    ensures |steps| - k <= Left(states[k])
    ensures !states[|steps|].pc.Exited? ==> exists s' :: Next(states[|steps|], Batch(Error), s')
    decreases |steps| - k
  {
    hide Inv, Next, Left, Init;
    AlwaysInv(states, steps, k);
    if k < |steps| {
      assert StepAt(states, steps, k);
      LeftDrops(states[k], steps[k], states[k + 1]);
      DropTerminates(states, steps, k + 1);
    } else {
      LeftPositive(states[k]);
      if !states[k].pc.Exited? { BatcherMoves(states[k], Error); }
    }
  }

  lemma LeftPositive(s: State)
    requires Inv(s)
    ensures Left(s) >= 0 && (Left(s) == 0 ==> s.pc.Exited?)
  {
    hide OrderOk, DoneOk, FileOk, RecOk, NoRepeats, Bytes;
    if s.pc.Write? && s.pc.k < |s.batch| {
      BatchInRange(s, s.pc.k);
      assert s.batch[s.pc.k..][0] == s.batch[s.pc.k];
    }
  }
}
