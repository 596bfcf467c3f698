/** What writers hand to `append` is what the file holds: records, their order and
  * the file tied to the calls themselves.
  */
module WalAppends {
  import opened Keys
  import opened Wal
  import opened WalDurable

  // ---------------------------------------------------------------------------
  // Records are the appends
  // ---------------------------------------------------------------------------

  // The byte strings handed to `append`, in the order the appends began.
  function Appends(steps: seq<Step>): seq<seq<Byte>> {
    if steps == [] then []
    else
      var step := steps[|steps| - 1];
      Appends(steps[..|steps| - 1]) + (if step.Append? then [step.data] else [])
  }

  predicate SameData(recs: seq<Rec>, datas: seq<seq<Byte>>) {
    |recs| == |datas| && forall id :: 0 <= id < |recs| ==> recs[id].data == datas[id]
  }

  lemma DataStays(s: State, step: Step, s': State, datas: seq<seq<Byte>>)
    requires Next(s, step, s') && SameData(s.recs, datas)
    ensures SameData(s'.recs, datas + if step.Append? then [step.data] else [])
  {
    hide Bytes, Sorted, WriteAt, Pushed;
  }

  lemma {:induction false} RecordsAreAppends(states: seq<State>, steps: seq<Step>, k: nat)
    requires Run(states, steps) && k < |states|
    ensures SameData(states[k].recs, Appends(steps[..k]))
  {
    hide Next;
    if k > 0 {
      RecordsAreAppends(states, steps, k - 1);
      assert StepAt(states, steps, k - 1);
      assert steps[..k][..k - 1] == steps[..k - 1];
      DataStays(states[k - 1], steps[k - 1], states[k], Appends(steps[..k - 1]));
    }
  }

  lemma {:induction false} AppendsGrow(steps: seq<Step>, a: nat, k: nat)
    requires a <= k <= |steps|
    ensures Appends(steps[..a]) <= Appends(steps[..k])
    decreases k
  {
    if a < k {
      AppendsGrow(steps, a, k - 1);
      assert steps[..k][..k - 1] == steps[..k - 1];
    }
  }

  // In every later state the record of an append has the bytes the append was given.
  lemma AsAppended(states: seq<State>, steps: seq<Step>, a: nat, k: nat)
    requires Run(states, steps) && a < k < |states| && steps[a].Append?
    ensures
      var id := |states[a].recs|;
      id < |states[k].recs| && states[k].recs[id].data == steps[a].data
  {
    hide Next, Init, StepAt;
    RecordsAreAppends(states, steps, a);
    RecordsAreAppends(states, steps, k);
    assert steps[..a + 1][..a] == steps[..a];
    AppendsGrow(steps, a + 1, k);
  }

  // ---------------------------------------------------------------------------
  // The file
  // ---------------------------------------------------------------------------

  // The byte strings with these numbers, one after the other.
  function Text(datas: seq<seq<Byte>>, ids: seq<Id>): seq<Byte> {
    if ids == [] then []
    else Text(datas, ids[..|ids| - 1]) + (if ids[|ids| - 1] < |datas| then datas[ids[|ids| - 1]] else [])
  }

  lemma {:induction false} BytesAreText(recs: seq<Rec>, datas: seq<seq<Byte>>, ids: seq<Id>)
    requires SameData(recs, datas)
    ensures Bytes(recs, ids) == Text(datas, ids)
  {
    if ids != [] { BytesAreText(recs, datas, ids[..|ids| - 1]); }
  }

  predicate NoFailure(states: seq<State>, steps: seq<Step>, k: nat) {
    k <= |steps| && k <= |states| && forall i :: 0 <= i < k ==> !Fails(states[i], steps[i])
  }

  // Unless a write has failed, the file is at any time what it was at the start, then the
  // bytes of whole appends, each at most once, and then the first bytes of one more.
  lemma FileIsAppends(states: seq<State>, steps: seq<Step>, k: nat) returns (ids: seq<Id>, part: seq<Byte>)
    requires Run(states, steps) && k < |states| && NoFailure(states, steps, k)
    ensures
      var datas := Appends(steps[..k]);
      && (forall i :: 0 <= i < |ids| ==> ids[i] < |datas|) && NoRepeats(ids)
      && states[k].file == states[0].file + Text(datas, ids) + part
      && (part != [] ==> exists id :: 0 <= id < |datas| && id !in ids && part <= datas[id])
  {
    hide Next, Init, OrderOk, DoneOk, Bytes, Text, RecOk, Fails;
    var s := states[k];
    StartStays(states, steps, k);
    FailedMeans(states, steps, k);
    RecordsAreAppends(states, steps, k);
    FileIsLog(states, steps, k);
    AlwaysInv(states, steps, k);
    ids, part := s.log[..Flushed(s)], Partial(s);
    BytesAreText(s.recs, Appends(steps[..k]), ids);
    forall i | 0 <= i < |ids| ensures ids[i] < |s.recs| { assert At(s.recs, s.log[i], Logged); }
    if part != [] {
      var id := s.log[Flushed(s)];
      assert At(s.recs, id, Logged);
    }
  }

  lemma {:induction false} StartStays(states: seq<State>, steps: seq<Step>, k: nat)
    requires Run(states, steps) && k < |states|
    ensures states[k].start == states[0].file
  {
    hide Next;
    if k > 0 {
      StartStays(states, steps, k - 1);
      assert StepAt(states, steps, k - 1);
      StepKeepsStart(states[k - 1], steps[k - 1], states[k]);
    }
  }

  lemma StepKeepsStart(s: State, step: Step, s': State)
    requires Next(s, step, s')
    ensures s'.start == s.start
  {
    hide Bytes, Sorted, WriteAt, Pushed, Take;
  }

  // Each number below `n` once.
  ghost predicate EachOnce(ids: seq<Id>, n: nat) {
    NoRepeats(ids) && forall id: nat :: id in ids <==> id < n
  }

  // After `drop` has waited for the batcher, unless a write failed, the file is what it was
  // at the start and then the bytes of every append, each once.
  lemma ExitHoldsAppends(states: seq<State>, steps: seq<Step>, k: nat)
    requires Run(states, steps) && k < |states| && states[k].pc.Exited? && NoFailure(states, steps, k)
    ensures EachOnce(states[k].log, |Appends(steps[..k])|)
    ensures states[k].file == states[0].file + Text(Appends(steps[..k]), states[k].log)
  {
    hide Next, Init, OrderOk, DoneOk, FileOk, Bytes, Text, RecOk, Fails;
    var s := states[k];
    StartStays(states, steps, k);
    FailedMeans(states, steps, k);
    RecordsAreAppends(states, steps, k);
    ExitFlushesAll(states, steps, k);
    AlwaysInv(states, steps, k);
    BytesAreText(s.recs, Appends(steps[..k]), s.log);
    forall id: nat | id in s.log
      ensures id < |s.recs|
    {
      var j :| 0 <= j < |s.log| && s.log[j] == id;
      assert At(s.recs, s.log[j], Logged);
    }
  }

  // An append that is told it is done has its bytes in the file, unless a write failed.
  lemma DoneIsDurable(states: seq<State>, steps: seq<Step>, a: nat, k: nat) returns (o: nat)
    requires Run(states, steps) && a < k < |states| && steps[a].Append? && NoFailure(states, steps, k)
    requires |states[a].recs| < |states[k].recs| && states[k].recs[|states[a].recs|].done
    ensures
      var data := steps[a].data;
      |states[0].file| <= o && o + |data| <= |states[k].file| && states[k].file[o..o + |data|] == data
  {
    hide Next, Init, Bytes, Fails;
    var s := states[k];
    StartStays(states, steps, k);
    FailedMeans(states, steps, k);
    AsAppended(states, steps, a, k);
    var j := DoneMeansWritten(states, steps, k, |states[a].recs|);
    o := |s.start| + |Bytes(s.recs, s.log[..j])|;
  }

  // ---------------------------------------------------------------------------
  // The order in the file
  // ---------------------------------------------------------------------------

  lemma PublishStep(s: State, id: Id, s': State)
    requires Next(s, Publish(id), s')
    ensures id < |s.recs| == |s'.recs| && !s'.recs[id].place.Fetched?
  {
  }

  // An append that begins after another has published comes after it.
  lemma LaterAppendIsLater(states: seq<State>, steps: seq<Step>, a: nat, b: nat, k: nat, x: Id, j: nat)
    returns (i: nat)
    requires Run(states, steps) && a < b < k < |states| && steps[a] == Publish(x) && steps[b].Append?
    requires j < |states[k].log| && states[k].log[j] == |states[b].recs|
    ensures i < j && states[k].log[i] == x
  {
    hide Next, Init, Inv;
    assert StepAt(states, steps, a);
    PublishStep(states[a], x, states[a + 1]);
    AsAppended(states, steps, b, k);
    RecsGrow(states, steps, a + 1, b);
    i := AppendOrder(states, steps, a + 1, k, x, |states[b].recs|, j);
  }

  lemma {:induction false} RecsGrow(states: seq<State>, steps: seq<Step>, a: nat, b: nat)
    requires Run(states, steps) && a <= b < |states|
    ensures |states[a].recs| <= |states[b].recs|
    decreases b
  {
    hide Next, Init;
    if a < b {
      RecsGrow(states, steps, a, b - 1);
      assert StepAt(states, steps, b - 1);
      StepGrows(states[b - 1], steps[b - 1], states[b]);
    }
  }

  // ---------------------------------------------------------------------------
  // Dropping the log
  // ---------------------------------------------------------------------------

  lemma ClosedStep(s: State, step: Step, s': State)
    requires Next(s, step, s')
    ensures step.Drop? ==> !s'.running
    ensures !s.running ==> !s'.running && !step.Append?
  {
    hide Bytes, Sorted, WriteAt, Pushed, Take;
  }

  lemma {:induction false} ClosedForGood(states: seq<State>, steps: seq<Step>, a: nat, k: nat)
    requires Run(states, steps) && a < k < |states| && steps[a].Drop?
    ensures !states[k].running && (k < |steps| ==> !steps[k].Append?)
    decreases k
  {
    hide Next, Init;
    assert StepAt(states, steps, k - 1);
    ClosedStep(states[k - 1], steps[k - 1], states[k]);
    if a < k - 1 { ClosedForGood(states, steps, a, k - 1); }
    if k < |steps| {
      assert StepAt(states, steps, k);
      ClosedStep(states[k], steps[k], states[k + 1]);
    }
  }

  // `drop` ends: from then on a run has at most so many steps, and until the batcher has
  // exited it has another one.
  lemma DropEnds(states: seq<State>, steps: seq<Step>, a: nat)
    requires Run(states, steps) && a < |steps| && steps[a].Drop?
    ensures |steps| - (a + 1) <= Left(states[a + 1])
    ensures !states[|steps|].pc.Exited? ==> exists s' :: Next(states[|steps|], Batch(Error), s')
  {
    hide Next, Init, Left;
    ClosedForGood(states, steps, a, a + 1);
    DropTerminates(states, steps, a + 1);
  }
}
