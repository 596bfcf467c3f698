/** One collector, retirer or thread of module Ebr running without interference does
  * what the methods of the reclamation domain do.
  */
module EbrAlone {
  import opened Ebr
  import opened EbrDomain

  // ---------------------------------------------------------------------------
  // Steps of one collector
  // ---------------------------------------------------------------------------

  ghost predicate Alone(g: Shared, me: Id, c: Collector, n: nat, g': Shared, c': Collector)
    decreases n
  {
    if n == 0 then g' == g && c' == c
    else CollectEnabled(g, c) && Alone(Collect(g, me, c).1, me, Collect(g, me, c).0, n - 1, g', c')
  }

  lemma {:induction false} AloneThen(g: Shared, me: Id, c: Collector, m: nat, g1: Shared, c1: Collector, n: nat,
                                     g2: Shared, c2: Collector)
    requires Alone(g, me, c, m, g1, c1) && Alone(g1, me, c1, n, g2, c2)
    ensures Alone(g, me, c, m + n, g2, c2)
    decreases m
  {
    if m > 0 { AloneThen(Collect(g, me, c).1, me, Collect(g, me, c).0, m - 1, g1, c1, n, g2, c2); }
  }

  predicate Sized(g: Shared) {
    |g.slots| == N_SLOTS && |g.bags| == N_BAGS
  }

  lemma SiftOne(todo: seq<Record>, keep: seq<Record>, freed: seq<Obj>, cur: nat)
    requires todo != []
    ensures var r := todo[0];
            if Eligible(r, cur) then
              && Reversed(Kept(todo[1..], cur)) + keep == Reversed(Kept(todo, cur)) + keep
              && (freed + [r.obj]) + Dropped(todo[1..], cur) == freed + Dropped(todo, cur)
            else
              && Reversed(Kept(todo[1..], cur)) + ([r] + keep) == Reversed(Kept(todo, cur)) + keep
              && freed + Dropped(todo[1..], cur) == freed + Dropped(todo, cur)
  {
  }

  lemma {:induction false} SiftAlone(g: Shared, me: Id, cur: nat, b: nat, todo: seq<Record>, keep: seq<Record>)
      returns (g': Shared)
    requires Sized(g) && b < N_BAGS
    ensures Alone(g, me, Sift(cur, b, todo, keep), |todo| + 1, g', Repush(cur, b, Reversed(Kept(todo, cur)) + keep))
    ensures g' == g.(freed := g.freed + Dropped(todo, cur), ledger := g'.ledger)
    decreases |todo|
  {
    var (c1, g1) := Collect(g, me, Sift(cur, b, todo, keep));
    if todo == [] {
      g' := g;
      assert [] + keep == keep && g.freed + [] == g.freed;
      assert Alone(g1, me, c1, 0, g', c1);
    } else {
      SiftOne(todo, keep, g.freed, cur);
      g' := SiftAlone(g1, me, cur, b, todo[1..], c1.keep);
    }
  }

  lemma {:induction false} RepushAlone(g: Shared, me: Id, cur: nat, b: nat, keep: seq<Record>) returns (g': Shared)
    requires Sized(g) && b < N_BAGS
    ensures Alone(g, me, Repush(cur, b, keep), |keep| + 1, g', Onward(cur, b))
    ensures g' == g.(bags := g.bags[b := Reversed(keep) + g.bags[b]], ledger := g'.ledger)
    decreases |keep|
  {
    var (c1, g1) := Collect(g, me, Repush(cur, b, keep));
    if keep == [] {
      g' := g;
      assert [] + g.bags[b] == g.bags[b] && g.bags[b := g.bags[b]] == g.bags;
      assert Alone(g1, me, c1, 0, g', c1);
    } else {
      g' := RepushAlone(g1, me, cur, b, keep[1..]);
      assert Reversed(keep[1..]) + ([keep[0]] + g.bags[b]) == Reversed(keep) + g.bags[b];
    }
  }

  lemma {:induction false} ReversedTwice(recs: seq<Record>, tail: seq<Record>)
    ensures Reversed(Reversed(recs) + tail) == Reversed(tail) + recs
  {
    if recs == [] {
      assert [] + tail == tail && Reversed(tail) + [] == Reversed(tail);
    } else {
      assert Reversed(recs) + tail == Reversed(recs[1..]) + ([recs[0]] + tail);
      ReversedTwice(recs[1..], [recs[0]] + tail);
      assert ([recs[0]] + tail)[1..] == tail;
      assert Reversed([recs[0]] + tail) + recs[1..] == Reversed(tail) + recs;
    }
  }

  // After one bag the next, and after the last the end.
  function Onward(cur: nat, b: nat): Collector {
    if b == 0 then Swap(cur, 1) else if b == 1 then Swap(cur, 2) else Dormant
  }

  // A collector that runs `reclaim_bag` without interference does to the bag
  // and to the freed objects what method ReclaimBag does, and goes on to the next.
  lemma ReclaimAlone(g: Shared, me: Id, cur: nat, b: nat) returns (n: nat, g': Shared)
    requires Sized(g) && b < N_BAGS
    ensures Alone(g, me, Swap(cur, b), n, g', Onward(cur, b))
    ensures g' == g.(bags := g.bags[b := Kept(g.bags[b], cur)], freed := g.freed + Dropped(g.bags[b], cur),
                     ledger := g'.ledger)
  {
    var all := g.bags[b];
    var (c1, g1) := Collect(g, me, Swap(cur, b));
    assert Alone(g1, me, c1, 0, g1, c1);
    var g2 := SiftAlone(g1, me, cur, b, all, []);
    var keep := Reversed(Kept(all, cur)) + [];
    g' := RepushAlone(g2, me, cur, b, keep);
    AloneThen(g1, me, c1, |all| + 1, g2, Repush(cur, b, keep), |keep| + 1, g', Onward(cur, b));
    ReversedTwice(Kept(all, cur), []);
    assert g2.bags[b] == [] && Reversed(keep) + [] == Kept(all, cur);
    assert g1.bags[b := Kept(all, cur)] == g.bags[b := Kept(all, cur)];
    n := 1 + (|all| + 1) + (|keep| + 1);
  }

  // Every pinned slot from `i` up to the high-water mark shows epoch `e`.
  predicate Current(g: Shared, e: nat, i: nat)
    requires Sized(g) && g.hwm < N_SLOTS
  {
    forall j :: i <= j <= g.hwm && IsPinned(g.slots[j]) ==> g.slots[j] == e
  }

  lemma {:induction false} ScanAlone(g: Shared, me: Id, e: nat, i: nat) returns (n: nat)
    requires Sized(g) && g.hwm < N_SLOTS && i <= g.hwm + 1
    ensures Alone(g, me, Scan(e, g.hwm, i), n, g, if Current(g, e, i) then Advance(e) else LoadCur)
    decreases g.hwm + 1 - i
  {
    var (c1, g1) := Collect(g, me, Scan(e, g.hwm, i));
    if c1.Scan? {
      n := ScanAlone(g, me, e, i + 1);
      n := n + 1;
    } else {
      n := 1;
      assert Alone(g1, me, c1, 0, g, c1);
    }
  }

  // The three bags, one after the other.
  lemma SweepAlone(g: Shared, me: Id, cur: nat) returns (n: nat, g': Shared)
    requires Sized(g)
    ensures Alone(g, me, Swap(cur, 0), n, g', Dormant)
    ensures g' == g.(bags := [Kept(g.bags[0], cur), Kept(g.bags[1], cur), Kept(g.bags[2], cur)],
                     freed := g.freed + Dropped(g.bags[0], cur) + Dropped(g.bags[1], cur) + Dropped(g.bags[2], cur),
                     ledger := g'.ledger)
  {
    hide Alone, Kept, Dropped;
    var n0, g0 := ReclaimAlone(g, me, cur, 0);
    var n1, g1 := ReclaimAlone(g0, me, cur, 1);
    var n2, g2 := ReclaimAlone(g1, me, cur, 2);
    AloneThen(g, me, Swap(cur, 0), n0, g0, Swap(cur, 1), n1, g1, Swap(cur, 2));
    AloneThen(g, me, Swap(cur, 0), n0 + n1, g1, Swap(cur, 2), n2, g2, Dormant);
    n, g' := n0 + n1 + n2, g2;
    assert g2.bags == [Kept(g.bags[0], cur), Kept(g.bags[1], cur), Kept(g.bags[2], cur)];
  }

  // Up to the scan's verdict: load the epoch, scan the slots, and advance or not.
  lemma AdvanceAlone(g: Shared, me: Id) returns (n: nat, g': Shared)
    requires Sized(g) && g.hwm < N_SLOTS
    ensures Alone(g, me, Dormant, n, g', Swap(g'.epoch, 0))
    ensures g' == g.(epoch := if Current(g, g.epoch, 0) then g.epoch + 1 else g.epoch)
  {
    var e := g.epoch;
    var k := ScanAlone(g, me, e, 0);
    assert Alone(g, me, Loaded(e), k + 1, g, if Current(g, e, 0) then Advance(e) else LoadCur);
    assert Alone(g, me, Dormant, k + 2, g, if Current(g, e, 0) then Advance(e) else LoadCur);
    if Current(g, e, 0) {
      g' := g.(epoch := e + 1);
      assert Alone(g', me, Swap(e + 1, 0), 0, g', Swap(e + 1, 0));
      assert Alone(g', me, LoadCur, 1, g', Swap(e + 1, 0));
      assert Alone(g, me, Advance(e), 2, g', Swap(e + 1, 0));
      AloneThen(g, me, Dormant, k + 2, g, Advance(e), 2, g', Swap(e + 1, 0));
      n := k + 4;
    } else {
      g' := g;
      assert Alone(g, me, Swap(e, 0), 0, g, Swap(e, 0));
      assert Alone(g, me, LoadCur, 1, g, Swap(e, 0));
      AloneThen(g, me, Dormant, k + 2, g, LoadCur, 1, g, Swap(e, 0));
      n := k + 3;
    }
  }

  // A whole round of a collector without interference does what method TryCollect
  // does: the epoch advances exactly if every pinned slot shows it, and all three
  // bags are filtered with the epoch that results.
  lemma RoundAlone(g: Shared, me: Id) returns (n: nat, g': Shared)
    requires Sized(g) && g.hwm < N_SLOTS
    ensures n > 0 && Alone(g, me, Dormant, n, g', Dormant)
    ensures g'.epoch == if Current(g, g.epoch, 0) then g.epoch + 1 else g.epoch
    ensures g'.bags == [Kept(g.bags[0], g'.epoch), Kept(g.bags[1], g'.epoch), Kept(g.bags[2], g'.epoch)]
    ensures g'.freed == g.freed + Dropped(g.bags[0], g'.epoch) + Dropped(g.bags[1], g'.epoch)
                        + Dropped(g.bags[2], g'.epoch)
    ensures g'.slots == g.slots && g'.hwm == g.hwm
  {
    hide Alone, Kept, Dropped;
    var a, g1 := AdvanceAlone(g, me);
    var b, g2 := SweepAlone(g1, me, g1.epoch);
    AloneThen(g, me, Dormant, a, g1, Swap(g1.epoch, 0), b, g2, Dormant);
    n, g' := a + b, g2;
    Moves(g1, me, g1.epoch, b, g2);
  }

  lemma Moves(g: Shared, me: Id, cur: nat, n: nat, g': Shared)
    requires Alone(g, me, Swap(cur, 0), n, g', Dormant)
    ensures n > 0
  {
  }

  predicate NothingPinned(g: Shared)
    requires Sized(g) && g.hwm < N_SLOTS
  {
    forall j :: 0 <= j <= g.hwm ==> !IsPinned(g.slots[j])
  }

  // With nothing pinned two rounds free everything in the bags.
  lemma TwoRoundsAlone(g: Shared, me: Id) returns (n: nat, g': Shared)
    requires Sized(g) && g.hwm < N_SLOTS && NothingPinned(g) && g.epoch + 2 < FREE
    requires forall b, r :: 0 <= b < N_BAGS && r in g.bags[b] ==> r.epoch <= g.epoch
    ensures Alone(g, me, Dormant, n, g', Dormant) && g'.epoch == g.epoch + 2 && g'.bags == [[], [], []]
    ensures multiset(g'.freed) == multiset(g.freed) + multiset(Objs(g.bags[0])) + multiset(Objs(g.bags[1]))
                                  + multiset(Objs(g.bags[2]))
  {
    hide Alone, Kept, Dropped, Objs;
    var a, g1 := RoundAlone(g, me);
    var b, g2 := RoundAlone(g1, me);
    AloneThen(g, me, Dormant, a, g1, Dormant, b, g2, Dormant);
    TwoPassesEmpty(g.bags[0], g.epoch + 2);
    TwoPassesEmpty(g.bags[1], g.epoch + 2);
    TwoPassesEmpty(g.bags[2], g.epoch + 2);
    n, g' := a + b, g2;
  }

  // ---------------------------------------------------------------------------
  // In a run
  // ---------------------------------------------------------------------------

  // The steps of collector `c`, and of nobody else.
  ghost predicate Rounds(run: seq<State>, c: Id) {
    |run| > 0 && forall i {:trigger run[i]} :: 0 <= i < |run| - 1 ==> Next(run[i], CollectStep(c), run[i + 1])
  }

  lemma {:induction false} AloneIsRun(s: State, c: Id, n: nat, g': Shared, q: Collector) returns (run: seq<State>)
    requires c in s.collectors && Alone(s.g, c, s.collectors[c], n, g', q)
    ensures Rounds(run, c) && run[0] == s && run[|run| - 1].g == g' && c in run[|run| - 1].collectors
    ensures run[|run| - 1].collectors[c] == q && run[|run| - 1].pinners == s.pinners
    decreases n
  {
    if n == 0 {
      run := [s];
    } else {
      var (q1, g1) := Collect(s.g, c, s.collectors[c]);
      var s1 := s.(g := g1, collectors := s.collectors[c := q1]);
      var rest := AloneIsRun(s1, c, n - 1, g', q);
      run := [s] + rest;
      forall i | 0 <= i < |run| - 1 ensures Next(run[i], CollectStep(c), run[i + 1]) {
        if i > 0 { assert run[i] == rest[i - 1] && run[i + 1] == rest[i]; }
      }
    }
  }

  // No object is tagged with an epoch that is yet to come.
  ghost predicate TagsPast(g: Shared) {
    forall o :: o in g.ledger ==> g.ledger[o].tag <= g.epoch
  }

  lemma TagsStep(s: State, step: Step, s': State)
    requires Inv(s) && Next(s, step, s') && TagsPast(s.g)
    ensures TagsPast(s'.g)
  {
    hide GuardInv, BagsOk, FreedOk;
    match step
    case PinStep(t, a) =>
    case RetireStep(r, o) => assert RetirerOk(s.g, r, s.retirers[r]);
    case CollectStep(c) => TagsCollect(s.g, c, s.collectors[c]);
  }

  lemma TagsCollect(g: Shared, me: Id, c: Collector)
    requires CollectEnabled(g, c) && Lists(g.ledger, AtCollector(me), Hoard(c)) && TagsPast(g)
    ensures TagsPast(Collect(g, me, c).1)
  {
    assert Hoard(c) != [] ==> Hoard(c)[0].obj in g.ledger && g.ledger[Hoard(c)[0].obj].tag == Hoard(c)[0].epoch;
  }

  lemma {:induction false} AlwaysPast(run: seq<State>, i: nat)
    requires Behavior(run) && i < |run| && run[i].g.epoch < UNPINNED
    ensures TagsPast(run[i].g)
  {
    hide Inv, Next;
    if i > 0 {
      EpochRises(run, i - 1, i);
      AlwaysPast(run, i - 1);
      AlwaysInv(run, i - 1);
      assert StepAt(run, i - 1);
      var step :| Next(run[i - 1], step, run[i]);
      TagsStep(run[i - 1], step, run[i]);
    } else {
      assert run[0].g.ledger == map[];
    }
  }

  lemma BagsPast(g: Shared)
    requires BagsOk(g) && TagsPast(g)
    ensures forall b, r :: 0 <= b < N_BAGS && r in g.bags[b] ==> r.epoch <= g.epoch
  {
    forall b, r: Record | 0 <= b < N_BAGS && r in g.bags[b] ensures r.epoch <= g.epoch {
      assert Lists(g.ledger, InBag(b), g.bags[b]);
      var i :| 0 <= i < |g.bags[b]| && g.bags[b][i] == r;
    }
  }

  // From any state of any run in which no slot is pinned, two rounds of a collector
  // that is at rest free every object in the bags.
  lemma GarbageIsFreed(run: seq<State>, i: nat, c: Id) returns (rounds: seq<State>)
    requires Behavior(run) && i < |run| && run[i].g.epoch < UNPINNED
    requires c in run[i].collectors && run[i].collectors[c].Dormant?
    requires forall j :: 0 <= j < |run[i].g.slots| ==> !IsPinned(run[i].g.slots[j])
    ensures Rounds(rounds, c) && rounds[0] == run[i]
    ensures
      var g, g' := run[i].g, rounds[|rounds| - 1].g;
      && |g.bags| == N_BAGS && g'.bags == [[], [], []] && g'.epoch == g.epoch + 2
      && forall b, r :: 0 <= b < N_BAGS && r in g.bags[b] ==> r.obj in g'.freed
  {
    hide GuardInv, Next, Alone, Lists;
    var g := run[i].g;
    AlwaysInv(run, i);
    AlwaysPast(run, i);
    BagsPast(g);
    var n, g' := TwoRoundsAlone(g, c);
    rounds := AloneIsRun(run[i], c, n, g', Dormant);
    forall b, r: Record | 0 <= b < N_BAGS && r in g.bags[b] ensures r.obj in g'.freed {
      InObjs(g.bags[b], r);
      assert b == 0 || b == 1 || b == 2;
      assert r.obj in multiset(g'.freed);
    }
  }

  // ---------------------------------------------------------------------------
  // A thread and a retirer
  // ---------------------------------------------------------------------------

  // The thread's own steps up to its guard, and nobody else's.
  ghost predicate Pinning(g: Shared, p: Pinner, n: nat, g': Shared, p': Pinner)
    decreases n
  {
    if n == 0 then g' == g && p' == p
    else PinEnabled(g, p, Walk) && Pinning(Pin(g, p, Walk).1, Pin(g, p, Walk).0, n - 1, g', p')
  }

  // A thread that has a slot publishes the current epoch in it.
  lemma ReadyAlone(g: Shared, i: nat) returns (g': Shared, p': Pinner)
    requires Sized(g) && i < N_SLOTS
    ensures Pinning(g, Ready(i), 2, g', p') && g' == g.(slots := g.slots[i := g.epoch])
    ensures p'.Pinned? && p'.i == i && p'.e == g.epoch && p'.at == g.epoch
  {
    var (p1, g1) := Pin(g, Ready(i), Walk);
    var (p2, g2) := Pin(g1, p1, Walk);
    g', p' := g2, p2;
    assert Pinning(g2, p2, 0, g', p') && Pinning(g1, p1, 1, g', p');
  }

  lemma {:induction false} ProbeAlone(g: Shared, i: nat) returns (n: nat, g': Shared, p': Pinner)
    requires Sized(g) && i <= N_SLOTS
    ensures Pinning(g, Probe(i), n, g', p')
    ensures p'.Panicked? <==> forall j :: i <= j < N_SLOTS ==> g.slots[j] != FREE
    ensures p'.Panicked? ==> g' == g
    ensures !p'.Panicked? ==>
      && p'.Pinned? && i <= p'.i < N_SLOTS && g.slots[p'.i] == FREE
      && (forall j :: i <= j < p'.i ==> g.slots[j] != FREE)
      && g' == g.(slots := g.slots[p'.i := g.epoch], hwm := if g.hwm < p'.i then p'.i else g.hwm)
    decreases N_SLOTS - i
  {
    var (p1, g1) := Pin(g, Probe(i), Walk);
    if p1.Panicked? {
      n, g', p' := 1, g, Panicked;
      assert Pinning(g1, p1, 0, g', p');
    } else if p1.Probe? {
      n, g', p' := ProbeAlone(g, i + 1);
      n := n + 1;
    } else {
      var (p2, g2) := Pin(g1, p1, Walk);
      var (p3, g3) := Pin(g2, p2, Walk);
      g', p' := ReadyAlone(g3, i);
      n := 5;
      assert Pinning(g2, p2, 3, g', p') && Pinning(g1, p1, 4, g', p');
      assert g3.slots[i := g.epoch] == g.slots[i := g.epoch];
    }
  }

  // A thread without a slot claims the first free one and publishes the current
  // epoch in it, as method Pin does; it panics exactly if none is free.
  lemma PinAlone(g: Shared) returns (n: nat, g': Shared, p': Pinner)
    requires Sized(g)
    ensures Pinning(g, Unregistered, n, g', p')
    ensures p'.Panicked? <==> forall j :: 0 <= j < N_SLOTS ==> g.slots[j] != FREE
    ensures !p'.Panicked? ==>
      && p'.Pinned? && p'.i < N_SLOTS && g.slots[p'.i] == FREE && (forall j :: 0 <= j < p'.i ==> g.slots[j] != FREE)
      && g' == g.(slots := g.slots[p'.i := g.epoch], hwm := if g.hwm < p'.i then p'.i else g.hwm)
  {
    n, g', p' := ProbeAlone(g, 0);
    n := n + 1;
  }

  // Three steps of a retirer: the record is in the bag of the epoch, tagged with it.
  lemma RetireAlone(g: Shared, me: Id, o: Obj)
    requires Sized(g) && o !in g.ledger
    ensures
      var (r1, g1) := Retire(g, me, Resting, o);
      RetireEnabled(g1, r1, o) &&
      var (r2, g2) := Retire(g1, me, r1, o);
      RetireEnabled(g2, r2, o) &&
      var (r3, g3) := Retire(g2, me, r2, o);
      && r3.Resting? && g3.ledger == g.ledger[o := Entry(InBag(g.epoch % N_BAGS), g.epoch)]
      && g3 == g.(ledger := g3.ledger, bags := g.bags[g.epoch % N_BAGS :=
                                                        [Record(o, g.epoch)] + g.bags[g.epoch % N_BAGS]])
  {
  }

  // ---------------------------------------------------------------------------
  // What a guard took stays
  // ---------------------------------------------------------------------------

  lemma HeldStep(s: State, step: Step, s': State, t: Id, o: Obj)
    requires Next(s, step, s') && t in s.pinners && s.pinners[t].Pinned? && o in s.pinners[t].held
    requires t in s'.pinners && s'.pinners[t].Pinned?
    ensures o in s'.pinners[t].held
  {
  }

  lemma {:induction false} HeldOn(run: seq<State>, t: Id, i: nat, j: nat, o: Obj)
    requires Behavior(run) && LiveThroughout(run, t, i, j) && o in run[i].pinners[t].held
    ensures o in run[j].pinners[t].held
  {
    hide Next;
    if i < j {
      HeldOn(run, t, i, j - 1, o);
      assert StepAt(run, j - 1);
      var step :| Next(run[j - 1], step, run[j]);
      HeldStep(run[j - 1], step, run[j], t, o);
    }
  }

  // Any pointer a guard takes in a step of the run is not freed as long as it lives.
  lemma TakenNotFreed(run: seq<State>, t: Id, i: nat, j: nat, o: Obj)
    requires Behavior(run) && i < j && LiveThroughout(run, t, i + 1, j) && run[j].g.epoch < UNPINNED
    requires Next(run[i], PinStep(t, Acquire(o)), run[i + 1])
    ensures o !in run[j].g.freed
  {
    hide Behavior;
    HeldOn(run, t, i + 1, j, o);
    NoUseAfterFree(run, j, t, o);
  }
}
