/** What the log guarantees about records when writes may fail: where the bytes
  * of a written record are, when completion means durability, and that a
  * published record is completed while the log is running.
  */
module WalDurable {
  import opened Keys
  import opened Wal

  // ---------------------------------------------------------------------------
  // Bytes of written records, failures included
  // ---------------------------------------------------------------------------

  // Where record number `j` of the log belongs in the file.
  function Offset(s: State, j: nat): nat
    requires j <= |s.log|
  {
    |s.start| + |Bytes(s.recs, s.log[..j])|
  }

  // The file has `d` at `o`.
  predicate Has(file: seq<Byte>, o: nat, d: seq<Byte>) {
    d == [] || (o + |d| <= |file| && file[o..o + |d|] == d)
  }

  predicate InFile(s: State, j: nat)
    requires j < |s.log|
  {
    Has(s.file, Offset(s, j), DataOf(s, s.log[j]))
  }

  predicate StoredOk(s: State, j: nat)
    requires j < |s.log| && s.log[j] < |s.recs|
  {
    s.recs[s.log[j]].stored ==> j < Flushed(s) && InFile(s, j)
  }

  // A record marked as stored is in the file at its place, and so is the part
  // already written of the record being written.
  ghost predicate BytesOk(s: State) {
    && (forall j {:trigger StoredOk(s, j)} :: 0 <= j < |s.log| && s.log[j] < |s.recs| ==> StoredOk(s, j))
    && (0 <= First(s) && s.pc.Write? && First(s) + s.pc.k <= |s.log| ==>
          Has(s.file, Offset(s, First(s) + s.pc.k), Partial(s)))
  }

  lemma {:induction false} OffsetRises(s: State, i: nat, j: nat)
    requires i <= j <= |s.log|
    ensures Offset(s, i) <= Offset(s, j)
    ensures i < j ==> Offset(s, i) + |DataOf(s, s.log[i])| <= Offset(s, j)
    decreases j - i
  {
    hide Bytes;
    if i < j {
      BytesOne(s.recs, s.log, i);
      OffsetRises(s, i + 1, j);
    }
  }

  // A positional write leaves what lies before it.
  lemma WriteAfter(f: seq<Byte>, off: nat, d: seq<Byte>, o: nat, e: seq<Byte>)
    requires Has(f, o, e) && o + |e| <= off
    ensures Has(WriteAt(f, off, d), o, e)
  {
    if e != [] {
      var f' := WriteAt(f, off, d);
      assert forall i :: 0 <= i < off && i < |f| ==> f'[i] == f[i];
      assert f'[o..o + |e|] == f[o..o + |e|];
    }
  }

  lemma WriteHere(f: seq<Byte>, off: nat, d: seq<Byte>)
    ensures Has(WriteAt(f, off, d), off, d)
  {
  }

  lemma Joined(f: seq<Byte>, o: nat, a: seq<Byte>, b: seq<Byte>)
    requires Has(f, o, a) && Has(f, o + |a|, b) && b != []
    ensures Has(f, o, a + b)
  {
    assert f[o..o + |a + b|] == f[o..o + |a|] + f[o + |a|..o + |a| + |b|];
  }

  lemma WriteMore(f: seq<Byte>, o: nat, data: seq<Byte>, done: nat, n: nat)
    requires done + n <= |data| && n > 0 && Has(f, o, data[..done])
    ensures Has(WriteAt(f, o + done, data[done..done + n]), o, data[..done + n])
  {
    var chunk := data[done..done + n];
    WriteAfter(f, o + done, chunk, o, data[..done]);
    WriteHere(f, o + done, chunk);
    Joined(WriteAt(f, o + done, chunk), o, data[..done], chunk);
    assert data[..done + n] == data[..done] + chunk;
  }

  // The step leaves the file, and every record has the data and the place it had.
  ghost predicate SameBytes(s: State, s': State) {
    && s'.file == s.file && s'.start == s.start && |s.recs| <= |s'.recs| && |s.log| <= |s'.log|
    && s'.log[..|s.log|] == s.log
    && (forall id {:trigger s'.recs[id]} :: 0 <= id < |s.recs| ==>
          s'.recs[id].data == s.recs[id].data && (s'.recs[id].stored ==> s.recs[id].stored))
    && Flushed(s) <= Flushed(s')
  }

  lemma SameOffset(s: State, s': State, j: nat)
    requires PlacesOk(s) && SameBytes(s, s') && j <= |s.log|
    ensures Offset(s', j) == Offset(s, j)
  {
    assert s'.log[..j] == s.log[..j];
    BytesSame(s.recs, s'.recs, s.log[..j]);
  }

  lemma SameStored(s: State, s': State)
    requires PlacesOk(s) && BytesOk(s) && SameBytes(s, s')
    requires forall k :: |s.log| <= k < |s'.log| && s'.log[k] < |s'.recs| ==> !s'.recs[s'.log[k]].stored
    requires s'.pc.Write? ==>
      || Partial(s') == []
      || (s.pc.Write? && First(s') == First(s) && s'.pc.k == s.pc.k && s'.log == s.log && Partial(s') == Partial(s))
    ensures BytesOk(s')
  {
    hide Bytes, Offset, Partial;
    forall j | 0 <= j < |s'.log| && s'.log[j] < |s'.recs|
      ensures StoredOk(s', j)
    {
      if j < |s.log| {
        assert s'.log[j] == s.log[j] && At(s.recs, s.log[j], Logged);
        assert StoredOk(s, j);
        SameOffset(s, s', j);
      }
    }
    if s'.pc.Write? && Partial(s') != [] && 0 <= First(s') && First(s') + s'.pc.k <= |s'.log| {
      SameOffset(s, s', First(s) + s.pc.k);
    }
  }

  lemma WriterBytes(s: State, s': State)
    requires Inv(s) && BytesOk(s) && WriterMoved(s, s')
    ensures BytesOk(s')
  {
    hide Bytes, DoneOk, OrderOk, RecOk, FileOk;
    SameTail(s, s');
    assert SameBytes(s, s');
    SameStored(s, s');
  }

  lemma SwapSame(s: State)
    requires PlacesOk(s) && BatchIsTail(s) && s.pc.Swap? && s.stack != []
    ensures SameBytes(s, SwapStep(s)) && Partial(SwapStep(s)) == []
  {
    hide Bytes, NoRepeats, Sorted, RecOk;
    var s' := SwapStep(s);
    assert s'.log[..|s.log|] == s.log && Flushed(s') == |s.log| == Flushed(s);
  }

  // What is taken has not been written.
  lemma TakenUnstored(s: State, k: nat)
    requires PlacesOk(s) && s.pc.Swap? && s.stack != [] && |s.log| <= k < |SwapStep(s).log|
    ensures var s' := SwapStep(s); s'.log[k] < |s'.recs| && !s'.recs[s'.log[k]].stored
  {
    hide Bytes, NoRepeats, Sorted, InOrder;
    var batch := Sorted(s.recs, s.stack);
    SortedSorts(s.recs, s.stack);
    var id := batch[k - |s.log|];
    assert id in multiset(batch) && id in s.stack;
    var i :| 0 <= i < |s.stack| && s.stack[i] == id;
    assert At(s.recs, s.stack[i], Stacked) && RecOk(s, id);
  }

  lemma TakeBytesOk(s: State)
    requires Inv(s) && BytesOk(s) && s.pc.Swap? && s.stack != []
    ensures BytesOk(SwapStep(s))
  {
    hide BytesOk, PlacesOk, DoneOk, OrderOk, FileOk, ClosedOk, SameBytes, SwapStep, Partial;
    var s' := SwapStep(s);
    SwapSame(s);
    forall k | |s.log| <= k < |s'.log| && s'.log[k] < |s'.recs|
      ensures !s'.recs[s'.log[k]].stored
    {
      TakenUnstored(s, k);
    }
    SameStored(s, s');
  }

  lemma FinishBytes(s: State, s': State)
    requires Inv(s) && BytesOk(s) && s.pc.Write? && s.pc.k < |s.batch| && s.batch[s.pc.k] < |s.recs|
    requires s.pc.written == |s.recs[s.batch[s.pc.k]].data| && Flagged(s, s') && s'.file == s.file
    requires s'.recs == s.recs[s.batch[s.pc.k] := s.recs[s.batch[s.pc.k]].(stored := true)]
    requires s'.pc == Write(s.pc.running, s.pc.k + 1, 0)
    ensures BytesOk(s')
  {
    hide Bytes, DoneOk, OrderOk, FileOk, NoRepeats, RecOk;
    var k := s.pc.k;
    NextRecord(s, k);
    var data := s.recs[s.batch[k]].data;
    assert Partial(s) == data by { assert data[..|data|] == data; }
    forall j | 0 <= j < |s'.log| && s'.log[j] < |s'.recs|
      ensures StoredOk(s', j)
    {
      assert StoredOk(s, j);
      FlagsKeepBytes(s, s', j);
    }
    assert Partial(s') == [];
  }

  // Where the next byte goes, and what of the record is there already.
  lemma WriteSpot(s: State)
    requires Inv(s) && s.pc.Write? && s.pc.k < |s.batch| && s.batch[s.pc.k] < |s.recs|
    ensures 0 <= First(s) && First(s) + s.pc.k < |s.log|
    ensures s.at + |Bytes(s.recs, s.batch[..s.pc.k])| == Offset(s, First(s) + s.pc.k)
    ensures s.pc.written <= |s.recs[s.batch[s.pc.k]].data|
    ensures Partial(s) == s.recs[s.batch[s.pc.k]].data[..s.pc.written]
  {
    hide Bytes, DoneOk, OrderOk, NoRepeats, RecOk, ClosedOk;
    NextRecord(s, s.pc.k);
  }

  lemma StoredStay(s: State, s': State, off: nat, d: seq<Byte>)
    requires PlacesOk(s) && BytesOk(s) && s.pc.Write? && s' == s.(file := WriteAt(s.file, off, d), pc := s'.pc)
    requires s'.pc.Write? && s'.pc.k == s.pc.k && 0 <= First(s) && First(s) + s.pc.k <= |s.log|
    requires Offset(s, First(s) + s.pc.k) <= off
    ensures forall j {:trigger StoredOk(s', j)} :: 0 <= j < |s'.log| && s'.log[j] < |s'.recs| ==> StoredOk(s', j)
  {
    hide Bytes, NoRepeats, RecOk, WriteAt, Has;
    forall j | 0 <= j < |s'.log| && s'.log[j] < |s'.recs|
      ensures StoredOk(s', j)
    {
      assert StoredOk(s, j);
      if s.recs[s.log[j]].stored {
        OffsetRises(s, j, First(s) + s.pc.k);
        WriteAfter(s.file, off, d, Offset(s, j), DataOf(s, s.log[j]));
      }
    }
  }

  lemma WroteBytesOk(s: State, s': State, n: nat)
    requires Inv(s) && BytesOk(s) && s.pc.Write? && Possible(s, Wrote(n)) && s' == WriteStep(s, Wrote(n))
    requires s.pc.written < |s.recs[s.batch[s.pc.k]].data|
    ensures BytesOk(s')
  {
    hide Inv, Bytes, Offset, WriteAt, Has, StoredOk;
    WriteSpot(s);
    assert PlacesOk(s) by { InvPlaces(s); }
    var k, done := s.pc.k, s.pc.written;
    var here, data := First(s) + k, s.recs[s.batch[k]].data;
    WriteMore(s.file, Offset(s, here), data, done, n);
    StoredStay(s, s', Offset(s, here) + done, data[done..done + n]);
    assert Offset(s', here) == Offset(s, here) by { SameLog(s, s', here); }
  }

  lemma InvPlaces(s: State)
    requires Inv(s)
    ensures PlacesOk(s)
  {
  }

  lemma SameLog(s: State, s': State, j: nat)
    requires s'.log == s.log && s'.recs == s.recs && s'.start == s.start && j <= |s.log|
    ensures Offset(s', j) == Offset(s, j)
  {
  }

  lemma WriteKeepsBytes(s: State, o: Outcome)
    requires Inv(s) && BytesOk(s) && s.pc.Write? && Possible(s, o)
    ensures BytesOk(WriteStep(s, o))
  {
    hide FileOk, DoneOk, OrderOk, RecOk, NoRepeats, ClosedOk, Bytes, WriteAt;
    var s' := WriteStep(s, o);
    if s.pc.k == |s.batch| {
      SameStored(s, s');
    } else {
      BatchInRange(s, s.pc.k);
      if s.pc.written == |s.recs[s.batch[s.pc.k]].data| {
        NextRecord(s, s.pc.k);
        FinishBytes(s, s');
      } else if o.Wrote? {
        WroteBytesOk(s, s', o.n);
      } else {
        SameStored(s, s');
      }
    }
  }

  lemma SignalKeepsBytes(s: State)
    requires Inv(s) && BytesOk(s) && s.pc.Signal?
    ensures BytesOk(SignalStep(s))
  {
    hide FileOk, DoneOk, OrderOk, RecOk, NoRepeats, ClosedOk, Bytes;
    SameStored(s, SignalStep(s));
  }

  lemma StepKeepsBytes(s: State, step: Step, s': State)
    requires Inv(s) && BytesOk(s) && Next(s, step, s')
    ensures BytesOk(s')
  {
    hide PlacesOk, ClosedOk, OrderOk, DoneOk, FileOk, BytesOk;
    match step {
      case Append(data) => WriterBytes(s, s');
      case Publish(id) => WriterBytes(s, s');
      case Drop => WriterBytes(s, s');
      case Batch(o) =>
        match s.pc {
          case Write(_, _, _) => WriteKeepsBytes(s, o);
          case Signal(_, _) => SignalKeepsBytes(s);
          case Swap(_) => if s.stack != [] { TakeBytesOk(s); } else { SameStored(s, s'); }
          case _ => SameStored(s, s');
        }
    }
  }

  lemma {:induction false} AlwaysBytes(states: seq<State>, steps: seq<Step>, k: nat)
    requires Run(states, steps) && k < |states|
    ensures BytesOk(states[k])
  {
    hide Inv, Next;
    if k > 0 {
      hide BytesOk;
      AlwaysInv(states, steps, k - 1);
      AlwaysBytes(states, steps, k - 1);
      assert StepAt(states, steps, k - 1);
      StepKeepsBytes(states[k - 1], steps[k - 1], states[k]);
    }
  }

  // In every run, whatever failed before or after: a record all of whose bytes
  // were accepted has them in the file, where its place in the log puts them.
  lemma StoredIsInFile(states: seq<State>, steps: seq<Step>, k: nat, j: nat)
    requires Run(states, steps) && k < |states| && j < |states[k].log|
    ensures states[k].log[j] < |states[k].recs|
    ensures
      var s := states[k];
      var o, r := Offset(s, j), s.recs[s.log[j]];
      r.stored && r.data != [] ==> o + |r.data| <= |s.file| && s.file[o..o + |r.data|] == r.data
  {
    hide Next, Init, Bytes, OrderOk, DoneOk, FileOk, NoRepeats, RecOk;
    AlwaysInv(states, steps, k);
    AlwaysBytes(states, steps, k);
    var s := states[k];
    assert At(s.recs, s.log[j], Logged);
    assert StoredOk(s, j);
  }

  // ---------------------------------------------------------------------------
  // When completion means durability
  // ---------------------------------------------------------------------------

  // The step is a `write_at` of bytes that returns an error or writes nothing.
  predicate Fails(s: State, step: Step) {
    && step.Batch? && s.pc.Write? && s.pc.k < |s.batch| && s.pc.written < |DataOf(s, s.batch[s.pc.k])|
    && !step.o.Wrote?
  }

  lemma {:induction false} FailedMeans(states: seq<State>, steps: seq<Step>, k: nat)
    requires Run(states, steps) && k < |states|
    ensures states[k].failed <==> exists j :: 0 <= j < k && Fails(states[j], steps[j])
  {
    hide Inv, Next, Fails;
    if k > 0 {
      FailedMeans(states, steps, k - 1);
      AlwaysInv(states, steps, k - 1);
      assert StepAt(states, steps, k - 1);
      StepFails(states[k - 1], steps[k - 1], states[k]);
    }
  }

  lemma StepFails(s: State, step: Step, s': State)
    requires Inv(s) && Next(s, step, s')
    ensures s'.failed <==> s.failed || Fails(s, step)
  {
    hide OrderOk, DoneOk, FileOk, NoRepeats, RecOk, Bytes, Sorted, WriteAt, ClosedOk;
    if s.pc.Write? && s.pc.k < |s.batch| { BatchInRange(s, s.pc.k); }
  }

  // The batcher ignores the result of a write and signals the whole batch.  So
  // between batches every completed record has had all its bytes accepted by
  // `write_at` exactly if no `write_at` so far failed or wrote nothing.
  lemma WrittenIffNoFailure(states: seq<State>, steps: seq<Step>, k: nat)
    requires Run(states, steps) && k < |states| && !states[k].pc.Write? && !states[k].pc.Signal?
    ensures (forall id :: 0 <= id < |states[k].recs| && states[k].recs[id].done ==> states[k].recs[id].stored) <==>
            (forall j :: 0 <= j < k ==> !Fails(states[j], steps[j]))
  {
    hide Bytes, NoRepeats, EarlierLogged, Init, Next, FileOk, Fails;
    AlwaysInv(states, steps, k);
    FailedMeans(states, steps, k);
    var s := states[k];
    if s.failed {
      var j: nat :| Lost(s, j);
      assert At(s.recs, s.log[j], Logged);
      assert s.recs[s.log[j]].done;
    } else {
      forall id | 0 <= id < |s.recs| && s.recs[id].done
        ensures s.recs[id].stored
      {
        assert RecOk(s, id);
        var j :| 0 <= j < |s.log| && s.log[j] == id;
      }
    }
  }

  // ---------------------------------------------------------------------------
  // A published record is completed while the log is running
  // ---------------------------------------------------------------------------

  // How many steps the batcher needs at most until it has swapped the stack, if
  // there is something on it: what is left of its batch, and the way to the top.
  function Until(s: State): int {
    match s.pc
    case Top => 2
    case Swap(_) => 1
    case Write(_, k, w) => (if k <= |s.batch| then Cost(s.recs, s.batch[k..]) else 0) - w + k + 5
    case Signal(_, k) => |s.batch| - k + 4
    case Check(_) => 3
    case Exited => 0
  }

  lemma {:induction false} CostStays(recs: seq<Rec>, recs': seq<Rec>, ids: seq<Id>)
    requires |recs| <= |recs'| && forall id {:trigger recs'[id]} :: 0 <= id < |recs| ==> recs'[id].data == recs[id].data
    requires forall k :: 0 <= k < |ids| ==> ids[k] < |recs|
    ensures Cost(recs', ids) == Cost(recs, ids)
  {
    if ids != [] { CostStays(recs, recs', ids[1..]); }
  }

  lemma BatchKnown(s: State)
    requires PlacesOk(s) && BatchIsTail(s)
    ensures forall k :: 0 <= k < |s.batch| ==> s.batch[k] < |s.recs|
  {
    forall k | 0 <= k < |s.batch| ensures s.batch[k] < |s.recs| { BatchInRange(s, k); }
  }

  lemma WriterUntil(s: State, s': State)
    requires Inv(s) && WriterMoved(s, s')
    ensures Until(s') == Until(s)
  {
    hide FileOk, DoneOk, OrderOk, RecOk, NoRepeats, ClosedOk, Cost;
    BatchKnown(s);
    if s.pc.Write? && s.pc.k <= |s.batch| { CostStays(s.recs, s'.recs, s.batch[s.pc.k..]); }
  }

  lemma BatchUntil(s: State, o: Outcome, s': State)
    requires Inv(s) && Next(s, Batch(o), s') && !s.pc.Swap? && s.stack != []
    ensures 0 < Until(s') < Until(s)
  {
    hide FileOk, DoneOk, OrderOk, RecOk, NoRepeats, ClosedOk, Bytes, WriteAt;
    if s.pc.Write? { WriteUntil(s, o); }
  }

  lemma WriteUntil(s: State, o: Outcome)
    requires Inv(s) && s.pc.Write? && Possible(s, o)
    ensures 0 < Until(WriteStep(s, o)) < Until(s)
  {
    hide OrderOk, DoneOk, FileOk, RecOk, NoRepeats, Bytes, WriteAt, ClosedOk;
    var s' := WriteStep(s, o);
    var k := s.pc.k;
    CostAtLeast(s.recs, s.batch[k..]);
    if k < |s.batch| {
      BatchInRange(s, k);
      assert s.batch[k..][1..] == s.batch[k + 1..];
      CostAtLeast(s.recs, s.batch[k + 1..]);
      SameCost(s.recs, s'.recs, s.batch[k + 1..]);
      if k + 1 < |s.batch| { BatchInRange(s, k + 1); }
    }
  }

  function Batches(steps: seq<Step>): nat {
    if steps == [] then 0 else (if steps[0].Batch? then 1 else 0) + Batches(steps[1..])
  }

  predicate OnItsWay(s: State, id: Id) { id < |s.recs| && !s.recs[id].place.Fetched? && !s.recs[id].done }

  // What one step does for a record that is not completed yet.
  lemma StepServes(s: State, step: Step, s': State, id: Id)
    requires Inv(s) && Next(s, step, s') && OnItsWay(s, id)
    ensures id < |s'.recs| && (s.recs[id].place.Logged? ==> s'.recs[id].place.Logged?)
    ensures s.recs[id].place.Stacked? ==> s'.recs[id].place.Stacked? || s'.recs[id].place.Logged?
    ensures step.Batch? && s.recs[id].place.Stacked? && s'.recs[id].place.Stacked? ==> 0 < Until(s') < Until(s)
    ensures step.Batch? && s.recs[id].place.Logged? && !s'.recs[id].done ==> 0 < Until(s') < Until(s)
    ensures !step.Batch? ==> Until(s') == Until(s)
  {
    hide PlacesOk, PcOk, DoneOk, FileOk, OrderOk, ClosedOk, Bytes, WriteAt, Until, Sorted;
    if !step.Batch? {
      WriterUntil(s, s');
    } else if s.recs[id].place.Stacked? {
      StackedServes(s, step.o, s', id);
    } else {
      LoggedServes(s, step.o, s', id);
    }
  }

  lemma StackedServes(s: State, o: Outcome, s': State, id: Id)
    requires Inv(s) && Next(s, Batch(o), s') && id < |s.recs| && s.recs[id].place.Stacked?
    ensures id < |s'.recs| && (s'.recs[id].place.Stacked? || s'.recs[id].place.Logged?)
    ensures s'.recs[id].place.Stacked? ==> 0 < Until(s') < Until(s)
  {
    hide PcOk, DoneOk, FileOk, OrderOk, NoRepeats, ClosedOk, Bytes, WriteAt, Until, Sorted, InOrder;
    assert RecOk(s, id);
    if s.pc.Swap? {
      SortedSorts(s.recs, s.stack);
      assert id in multiset(s.stack);
      assert id in Sorted(s.recs, s.stack);
    } else {
      BatchUntil(s, o, s');
    }
  }

  // A record taken and not completed is in the batch the batcher is busy with.
  lemma InTheBatch(s: State, id: Id)
    requires Inv(s) && OnItsWay(s, id) && s.recs[id].place.Logged?
    ensures s.pc.Write? || (s.pc.Signal? && s.pc.k < |s.batch|)
  {
    hide FileOk, OrderOk, NoRepeats, ClosedOk, Bytes;
    assert RecOk(s, id);
    var j :| 0 <= j < |s.log| && s.log[j] == id;
  }

  lemma LoggedServes(s: State, o: Outcome, s': State, id: Id)
    requires Inv(s) && Next(s, Batch(o), s') && OnItsWay(s, id) && s.recs[id].place.Logged?
    ensures id < |s'.recs| && s'.recs[id].place.Logged? && (!s'.recs[id].done ==> 0 < Until(s') < Until(s))
  {
    hide PlacesOk, PcOk, DoneOk, FileOk, OrderOk, ClosedOk, Bytes, WriteAt, Cost;
    InTheBatch(s, id);
    if s.pc.Write? {
      hide Until;
      WriteUntil(s, o);
    } else {
      assert BatchIsTail(s) && PlacesOk(s) by { InvParts(s); }
      BatchInRange(s, s.pc.k);
    }
  }

  lemma InvParts(s: State)
    requires Inv(s)
    ensures BatchIsTail(s) && PlacesOk(s)
  {
  }

  lemma DoneForGood(s: State, step: Step, s': State, id: Id)
    requires Next(s, step, s') && id < |s.recs|
    ensures id < |s'.recs| && (s.recs[id].done ==> s'.recs[id].done)
  {
    hide Bytes, Sorted, WriteAt;
  }

  // After that many batcher steps, writers interleaving at will, the record has
  // been taken into a batch ...
  lemma {:induction false} TakenSoon(states: seq<State>, steps: seq<Step>, k: nat, id: Id)
    requires Run(states, steps) && k < |states| && OnItsWay(states[k], id)
    requires Batches(steps[k..]) >= Until(states[k])
    ensures id < |states[|steps|].recs| && (states[|steps|].recs[id].place.Logged? || states[|steps|].recs[id].done)
    decreases |steps| - k
  {
    hide Inv, Next, Init, Until;
    AlwaysInv(states, steps, k);
    if states[k].recs[id].place.Logged? {
      StaysLogged(states, steps, k, id);
    } else {
      UntilPositive(states[k], id);
      assert StepAt(states, steps, k);
      StepServes(states[k], steps[k], states[k + 1], id);
      assert steps[k..][1..] == steps[k + 1..];
      NotDoneYet(states[k], steps[k], states[k + 1], id);
      if states[k + 1].recs[id].done {
        StaysDone(states, steps, k + 1, id);
      } else if states[k + 1].recs[id].place.Logged? {
        StaysLogged(states, steps, k + 1, id);
      } else {
        TakenSoon(states, steps, k + 1, id);
      }
    }
  }

  lemma UntilPositive(s: State, id: Id)
    requires Inv(s) && OnItsWay(s, id)
    ensures Until(s) > 0
  {
    hide FileOk, OrderOk, NoRepeats, ClosedOk, Bytes;
    assert RecOk(s, id);
    if s.pc.Write? {
      CostAtLeast(s.recs, s.batch[s.pc.k..]);
      if s.pc.k < |s.batch| { BatchInRange(s, s.pc.k); }
    }
    if s.recs[id].place.Logged? {
      var j :| 0 <= j < |s.log| && s.log[j] == id;
    }
  }

  lemma NotDoneYet(s: State, step: Step, s': State, id: Id)
    requires Inv(s) && Next(s, step, s') && OnItsWay(s, id)
    ensures id < |s'.recs| && !s'.recs[id].place.Fetched?
  {
    StepGrows(s, step, s');
  }

  lemma {:induction false} StaysLogged(states: seq<State>, steps: seq<Step>, k: nat, id: Id)
    requires Run(states, steps) && k < |states| && id < |states[k].recs|
    requires states[k].recs[id].place.Logged? || states[k].recs[id].done
    ensures id < |states[|steps|].recs| && (states[|steps|].recs[id].place.Logged? || states[|steps|].recs[id].done)
    decreases |steps| - k
  {
    hide Inv, Next, Init;
    if k < |steps| {
      AlwaysInv(states, steps, k);
      assert StepAt(states, steps, k);
      DoneForGood(states[k], steps[k], states[k + 1], id);
      if !states[k].recs[id].done { StepServes(states[k], steps[k], states[k + 1], id); }
      StaysLogged(states, steps, k + 1, id);
    }
  }

  lemma {:induction false} StaysDone(states: seq<State>, steps: seq<Step>, k: nat, id: Id)
    requires Run(states, steps) && k < |states| && id < |states[k].recs| && states[k].recs[id].done
    ensures id < |states[|steps|].recs| && states[|steps|].recs[id].done
    decreases |steps| - k
  {
    hide Next, Init;
    if k < |steps| {
      assert StepAt(states, steps, k);
      DoneForGood(states[k], steps[k], states[k + 1], id);
      StaysDone(states, steps, k + 1, id);
    }
  }

  // ... and once it is in a batch, after that many more it has been signalled.
  lemma {:induction false} DoneSoon(states: seq<State>, steps: seq<Step>, k: nat, id: Id)
    requires Run(states, steps) && k < |states| && OnItsWay(states[k], id) && states[k].recs[id].place.Logged?
    requires Batches(steps[k..]) >= Until(states[k])
    ensures id < |states[|steps|].recs| && states[|steps|].recs[id].done
    decreases |steps| - k
  {
    hide Inv, Next, Init, Until;
    AlwaysInv(states, steps, k);
    UntilPositive(states[k], id);
    assert StepAt(states, steps, k);
    StepServes(states[k], steps[k], states[k + 1], id);
    assert steps[k..][1..] == steps[k + 1..];
    if states[k + 1].recs[id].done {
      StaysDone(states, steps, k + 1, id);
    } else {
      DoneSoon(states, steps, k + 1, id);
    }
  }

  // Together: every record pushed is signalled, open or closed log, whatever the
  // writers do meanwhile and whatever the writes return.
  lemma PublishedIsSignalled(states: seq<State>, steps: seq<Step>, k: nat, m: nat, id: Id)
    requires Run(states, steps) && k <= m < |states| && OnItsWay(states[k], id)
    requires Batches(steps[k..m]) >= Until(states[k]) && Batches(steps[m..]) >= Until(states[m])
    ensures id < |states[|steps|].recs| && states[|steps|].recs[id].done
  {
    hide Inv, Next, Init, Until;
    var states1, steps1 := states[..m + 1], steps[..m];
    forall j | 0 <= j < |steps1|
      ensures StepAt(states1, steps1, j)
    {
      assert StepAt(states, steps, j);
    }
    assert steps1[k..] == steps[k..m];
    TakenSoon(states1, steps1, k, id);
    if states[m].recs[id].done {
      StaysDone(states, steps, m, id);
    } else {
      DoneSoon(states, steps, m, id);
    }
  }
}
