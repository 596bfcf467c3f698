/** The reclamation domain when one thread runs it alone: the loops that claim a
  * slot, scan the slots, and filter and re-push a bag.  Module Ebr covers the
  * interleavings of the same operations.
  */
module EbrDomain {
  import opened Ebr

  // What `reclaim_bag` leaves in a bag, and the objects it frees, in order.
  function Kept(recs: seq<Record>, cur: nat): seq<Record> {
    if recs == [] then [] else if Eligible(recs[0], cur) then Kept(recs[1..], cur)
    else [recs[0]] + Kept(recs[1..], cur)
  }

  function Dropped(recs: seq<Record>, cur: nat): seq<Obj> {
    if recs == [] then [] else if Eligible(recs[0], cur) then [recs[0].obj] + Dropped(recs[1..], cur)
    else Dropped(recs[1..], cur)
  }

  function Objs(recs: seq<Record>): seq<Obj> {
    if recs == [] then [] else [recs[0].obj] + Objs(recs[1..])
  }

  function Reversed(recs: seq<Record>): seq<Record> {
    if recs == [] then [] else Reversed(recs[1..]) + [recs[0]]
  }

  // Nothing is lost and nothing is freed twice.
  lemma {:induction false} FilterConserves(recs: seq<Record>, cur: nat)
    ensures multiset(Objs(recs)) == multiset(Objs(Kept(recs, cur))) + multiset(Dropped(recs, cur))
  {
    if recs != [] {
      FilterConserves(recs[1..], cur);
      assert Objs([recs[0]] + Kept(recs[1..], cur)) == [recs[0].obj] + Objs(Kept(recs[1..], cur));
    }
  }

  // Exactly the young records survive, in their old order.
  lemma {:induction false} KeptIsYoung(recs: seq<Record>, cur: nat, r: Record)
    ensures r in Kept(recs, cur) <==> r in recs && !Eligible(r, cur)
  {
    if recs != [] {
      assert recs == [recs[0]] + recs[1..];
      KeptIsYoung(recs[1..], cur, r);
    }
  }

  class Domain {
    var epoch: nat
    const slots: array<nat>
    var hwm: nat
    var bags: seq<seq<Record>>
    var freed: seq<Obj>

    ghost predicate Valid()
      reads this
    {
      && slots.Length == N_SLOTS && hwm < N_SLOTS && |bags| == N_BAGS
      && forall b, r :: 0 <= b < N_BAGS && r in bags[b] ==> r.epoch <= epoch
    }

    // Every pinned slot among the claimed ones shows the current epoch.
    ghost predicate AllCurrent(g: nat)
      reads this, slots
      requires Valid()
    {
      forall i :: 0 <= i <= hwm && IsPinned(slots[i]) ==> slots[i] == g
    }

    constructor ()
      ensures Valid() && fresh(slots) && epoch == 0 && hwm == 0 && bags == [[], [], []] && freed == []
      ensures forall i :: 0 <= i < N_SLOTS ==> slots[i] == FREE
    {
      slots := new nat[N_SLOTS](_ => FREE);
      epoch, hwm, bags, freed := 0, 0, [[], [], []], [];
    }

    // Claim a slot: the first free one, or none if all are taken.
    method LocalSlot(cached: int) returns (idx: int)
      requires Valid() && -1 <= cached < N_SLOTS
      modifies slots, this`hwm
      ensures Valid() && old(hwm) <= hwm
      ensures cached >= 0 ==> idx == cached && hwm == old(hwm) && slots[..] == old(slots[..])
      ensures cached < 0 && idx >= 0 ==>
                && idx < N_SLOTS && old(slots[idx]) == FREE && idx <= hwm
                && slots[..] == old(slots[..])[idx := UNPINNED]
                && (forall j :: 0 <= j < idx ==> old(slots[j]) != FREE)
      ensures cached < 0 && idx < 0 ==>
                slots[..] == old(slots[..]) && hwm == old(hwm) && forall j :: 0 <= j < N_SLOTS ==> slots[j] != FREE
    {
      if cached >= 0 { return cached; }
      for i := 0 to N_SLOTS
        invariant Valid() && slots[..] == old(slots[..]) && hwm == old(hwm)
        invariant forall j :: 0 <= j < i ==> slots[j] != FREE
      {
        if slots[i] == FREE {
          slots[i] := UNPINNED;
          if hwm < i { hwm := i; }
          return i;
        }
      }
      return -1;
    }

    // Publish the current epoch in this thread's slot, claiming one first if it
    // has none.  The slot is then among those a collector scans.
    method Pin(cached: int) returns (idx: int)
      requires Valid() && -1 <= cached <= hwm
      modifies slots, this`hwm
      ensures Valid() && old(hwm) <= hwm
      ensures idx < 0 <==> cached < 0 && forall j :: 0 <= j < N_SLOTS ==> old(slots[j]) != FREE
      ensures idx < 0 ==> slots[..] == old(slots[..]) && hwm == old(hwm)
      ensures idx >= 0 ==> idx <= hwm && slots[..] == old(slots[..])[idx := epoch]
      ensures idx >= 0 ==> if cached >= 0 then idx == cached else old(slots[idx]) == FREE
    {
      idx := LocalSlot(cached);
      if idx >= 0 { slots[idx] := epoch; }
    }

    // `Guard::drop`
    method Unpin(idx: nat)
      requires Valid() && idx <= hwm
      modifies slots
      ensures Valid() && slots[..] == old(slots[..])[idx := UNPINNED]
    {
      slots[idx] := UNPINNED;
    }

    method Retire(o: Obj)
      requires Valid()
      modifies this`bags
      ensures Valid() && |bags| == |old(bags)|
      ensures bags == old(bags)[epoch % N_BAGS := [Record(o, epoch)] + old(bags)[epoch % N_BAGS]]
    {
      var e := epoch;
      var bag := e % N_BAGS;
      bags := bags[bag := [Record(o, e)] + bags[bag]];
    }

    // Drain one bag, free what is old enough, push the rest back: a filter
    // that keeps the order.
    method ReclaimBag(b: nat, cur: nat)
      requires Valid() && b < N_BAGS
      modifies this`bags, this`freed
      ensures Valid()
      ensures bags == old(bags)[b := Kept(old(bags)[b], cur)]
      ensures freed == old(freed) + Dropped(old(bags)[b], cur)
    {
      hide Eligible;
      var all := bags[b];
      var node, keep := all, [];
      bags := bags[b := []];
      while node != []
        invariant bags == old(bags)[b := []]
        invariant Reversed(keep) + Kept(node, cur) == Kept(all, cur)
        invariant freed + Dropped(node, cur) == old(freed) + Dropped(all, cur)
        decreases |node|
      {
        if Eligible(node[0], cur) {
          freed := freed + [node[0].obj];
        } else {
          keep := [node[0]] + keep;
        }
        node := node[1..];
      }
      while keep != []
        invariant |bags| == N_BAGS && bags == old(bags)[b := bags[b]]
        invariant Reversed(keep) + bags[b] == Kept(all, cur)
        invariant freed == old(freed) + Dropped(all, cur)
        decreases |keep|
      {
        bags := bags[b := [keep[0]] + bags[b]];
        keep := keep[1..];
      }
      assert Reversed(keep) + bags[b] == bags[b];
      forall r | r in bags[b] ensures r.epoch <= epoch { KeptIsYoung(all, cur, r); }
    }

    method TryCollect()
      requires Valid()
      modifies this`epoch, this`bags, this`freed
      ensures Valid()
      ensures epoch == if old(AllCurrent(epoch)) then old(epoch) + 1 else old(epoch)
      ensures bags == [Kept(old(bags)[0], epoch), Kept(old(bags)[1], epoch), Kept(old(bags)[2], epoch)]
      ensures freed == old(freed) + Dropped(old(bags)[0], epoch) + Dropped(old(bags)[1], epoch)
                       + Dropped(old(bags)[2], epoch)
    {
      var g := epoch;
      var canAdvance := true;
      var i := 0;
      while i <= hwm
        invariant 0 <= i <= hwm + 1
        invariant canAdvance ==> forall j :: 0 <= j < i && IsPinned(slots[j]) ==> slots[j] == g
        invariant !canAdvance ==> !AllCurrent(g)
      {
        if IsPinned(slots[i]) && slots[i] != g {
          canAdvance := false;
          break;
        }
        i := i + 1;
      }
      if canAdvance { epoch := g + 1; }
      var cur := epoch;
      ReclaimBag(0, cur);
      ReclaimBag(1, cur);
      ReclaimBag(2, cur);
    }

    // While a slot is pinned at the epoch it read, collections advance at most
    // once past it and keep every record of that epoch or later.
    method CollectWhilePinned(idx: nat, n: nat)
      requires Valid() && idx <= hwm && slots[idx] <= epoch <= slots[idx] + 1 && epoch < UNPINNED
      modifies this`epoch, this`bags, this`freed
      ensures Valid() && old(epoch) <= epoch <= slots[idx] + 1
      ensures forall b, r :: 0 <= b < N_BAGS && r in old(bags)[b] && r.epoch >= slots[idx] ==> r in bags[b]
    {
      for i := 0 to n
        invariant Valid() && old(epoch) <= epoch <= slots[idx] + 1
        invariant forall b, r :: 0 <= b < N_BAGS && r in old(bags)[b] && r.epoch >= slots[idx] ==> r in bags[b]
      {
        ghost var was := bags;
        TryCollect();
        forall b, r: Record | 0 <= b < N_BAGS && r in was[b] && r.epoch >= slots[idx]
          ensures r in bags[b]
        {
          KeptIsYoung(was[b], epoch, r);
        }
      }
    }

    // An object retired under a guard survives any number of collections while
    // the guard lives.
    method RetireUnderGuard(cached: int, o: Obj, n: nat) returns (idx: int)
      requires Valid() && -1 <= cached <= hwm && epoch < UNPINNED
      modifies slots, this
      ensures Valid() && (idx < 0 ==> slots[..] == old(slots[..]) && bags == old(bags) && epoch == old(epoch))
      ensures idx >= 0 ==>
        && idx <= hwm && slots[..] == old(slots[..])[idx := old(epoch)] && old(epoch) <= epoch <= old(epoch) + 1
        && Record(o, old(epoch)) in bags[old(epoch) % N_BAGS]
    {
      idx := Pin(cached);
      if idx < 0 { return; }
      Retire(o);
      assert Record(o, epoch) in bags[epoch % N_BAGS];
      CollectWhilePinned(idx, n);
    }

    // Once the last guard is dropped, two collections free it with all other garbage.
    method DropAndCollect(idx: nat, o: Obj, e: nat)
      requires Valid() && idx <= hwm && epoch + 2 < FREE && Record(o, e) in bags[e % N_BAGS]
      requires forall i :: 0 <= i <= hwm && i != idx ==> !IsPinned(slots[i])
      modifies slots, this`epoch, this`bags, this`freed
      ensures Valid() && bags == [[], [], []] && o in freed
    {
      Unpin(idx);
      ghost var b := e % N_BAGS;
      InObjs(bags[b], Record(o, e));
      ghost var all := multiset(freed) + multiset(Objs(bags[0])) + multiset(Objs(bags[1])) + multiset(Objs(bags[2]));
      assert o in all by { assert b == 0 || b == 1 || b == 2; }
      CollectTwice();
      assert o in multiset(freed);
    }

    // With no thread pinned, two collections free everything.
    method CollectTwice()
      requires Valid() && forall i :: 0 <= i <= hwm ==> !IsPinned(slots[i])
      requires epoch + 2 < FREE
      modifies this`epoch, this`bags, this`freed
      ensures Valid() && epoch == old(epoch) + 2 && bags == [[], [], []]
      ensures multiset(freed) == old(multiset(freed) + multiset(Objs(bags[0])) + multiset(Objs(bags[1]))
                                     + multiset(Objs(bags[2])))
    {
      ghost var b0, b1, b2, log, last := bags[0], bags[1], bags[2], freed, epoch + 2;
      hide Kept, Dropped, Objs;
      TryCollect();
      assert epoch == last - 1 && bags == [Kept(b0, last - 1), Kept(b1, last - 1), Kept(b2, last - 1)];
      TryCollect();
      TwoPassesFree(log, b0, b1, b2, last);
    }
  }

  lemma {:induction false} InObjs(recs: seq<Record>, r: Record)
    requires r in recs
    ensures r.obj in multiset(Objs(recs))
  {
    if r != recs[0] { InObjs(recs[1..], r); }
  }

  lemma TwoPassesFree(log: seq<Obj>, b0: seq<Record>, b1: seq<Record>, b2: seq<Record>, cur: nat)
    requires 2 <= cur < FREE && forall r :: r in b0 || r in b1 || r in b2 ==> r.epoch + 2 <= cur
    ensures Kept(Kept(b0, cur - 1), cur) == Kept(Kept(b1, cur - 1), cur) == Kept(Kept(b2, cur - 1), cur) == []
    ensures
      var once := log + Dropped(b0, cur - 1) + Dropped(b1, cur - 1) + Dropped(b2, cur - 1);
      var twice := once + Dropped(Kept(b0, cur - 1), cur) + Dropped(Kept(b1, cur - 1), cur)
                     + Dropped(Kept(b2, cur - 1), cur);
      multiset(twice) == multiset(log) + multiset(Objs(b0)) + multiset(Objs(b1)) + multiset(Objs(b2))
  {
    hide Kept, Dropped, Objs;
    TwoPassesEmpty(b0, cur);
    TwoPassesEmpty(b1, cur);
    TwoPassesEmpty(b2, cur);
  }

  // Records of epoch `cur - 2` or older are gone after passes at `cur - 1` and `cur`.
  lemma TwoPassesEmpty(recs: seq<Record>, cur: nat)
    requires 2 <= cur < FREE && forall r :: r in recs ==> r.epoch + 2 <= cur
    ensures Kept(Kept(recs, cur - 1), cur) == []
    ensures multiset(Dropped(recs, cur - 1)) + multiset(Dropped(Kept(recs, cur - 1), cur)) == multiset(Objs(recs))
  {
    FilterConserves(recs, cur - 1);
    FilterConserves(Kept(recs, cur - 1), cur);
    if Kept(Kept(recs, cur - 1), cur) != [] {
      var r := Kept(Kept(recs, cur - 1), cur)[0];
      KeptIsYoung(Kept(recs, cur - 1), cur, r);
      KeptIsYoung(recs, cur - 1, r);
    }
  }
}
