/** The single-producer single-consumer ring: cursors that wrap at the word size,
  * index masking, and slots that are initialized only between `head` and `tail`.
  *
  * The first part is the protocol under every interleaving of the two ends, each
  * load, slot access and store a step.  `pushed` and `popped` are the histories of
  * the values published and delivered.  The second part is the ring as an object.
  */
module Spsc {
  import opened Common
  import opened Bits

  // A slot is `None` when it holds no value that is still to be taken or dropped.
  type Slots<V> = seq<Option<V>>

  datatype Producer<V> =
    | Resting
    | Offering(v: V)
    | HaveTail(v: V, tail: nat)
    | Writing(v: V, tail: nat)
    | Publishing(v: V, tail: nat)

  datatype Consumer<V> =
    | Idle
    | HaveHead(head: nat)
    | Reading(head: nat)
    | Advancing(v: V, head: nat)

  datatype State<V> = State(
    head: nat, tail: nat, slots: Slots<V>, prod: Producer<V>, cons: Consumer<V>, pushed: seq<V>, popped: seq<V>)

  // ---------------------------------------------------------------------------
  // Steps
  // ---------------------------------------------------------------------------

  function Index(cursor: nat, cap: nat): nat
    requires cap > 0
  {
    And(cursor, cap - 1)
  }

  function Put<V>(slots: Slots<V>, i: nat, x: Option<V>): Slots<V> {
    if i < |slots| then slots[i := x] else slots
  }

  function ProducerStep<V>(s: State<V>): State<V>
    requires |s.slots| > 0
  {
    match s.prod
    case Resting => s
    case Offering(v) => s.(prod := HaveTail(v, s.tail))
    case HaveTail(v, tail) =>
      // full: the value goes back to the caller
      s.(prod := if WrappingSub(tail, s.head) == |s.slots| then Resting else Writing(v, tail))
    case Writing(v, tail) => s.(slots := Put(s.slots, Index(tail, |s.slots|), Some(v)), prod := Publishing(v, tail))
    case Publishing(v, tail) => s.(tail := (tail + 1) % WORD, prod := Resting, pushed := s.pushed + [v])
  }

  function ConsumerStep<V>(s: State<V>): State<V>
    requires |s.slots| > 0
  {
    match s.cons
    case Idle => s.(cons := HaveHead(s.head))
    case HaveHead(head) => s.(cons := if head == s.tail then Idle else Reading(head))
    case Reading(head) =>
      // moving the value out; reading an empty slot would be reading garbage
      var i := Index(head, |s.slots|);
      if i < |s.slots| && s.slots[i].Some? then
        s.(slots := s.slots[i := None], cons := Advancing(s.slots[i].value, head))
      else s
    case Advancing(v, head) => s.(head := (head + 1) % WORD, cons := Idle, popped := s.popped + [v])
  }

  datatype Step<V> = Offer(v: V) | Produce | Consume

  predicate Next<V(==)>(s: State<V>, step: Step<V>, s': State<V>) {
    |s.slots| > 0 &&
    match step
    case Offer(v) => s.prod.Resting? && s' == s.(prod := Offering(v))
    case Produce => !s.prod.Resting? && s' == ProducerStep(s)
    case Consume => s' == ConsumerStep(s)
  }

  // Any power of two that fits the address space; `channel` makes it at least 2.
  predicate Capacity(cap: nat) { IsPow2(cap) && cap < WORD }

  predicate Init<V>(s: State<V>) {
    && Capacity(|s.slots|) && s.head == 0 && s.tail == 0 && s.pushed == [] && s.popped == []
    && s.prod == Resting && s.cons == Idle && forall i :: 0 <= i < |s.slots| ==> s.slots[i].None?
  }

  // ---------------------------------------------------------------------------
  // Invariant
  // ---------------------------------------------------------------------------

  // What slot of counter `k` holds, for a counter in [popped, popped + cap).
  predicate SlotOk<V(==)>(s: State<V>, k: nat)
    requires |s.slots| > 0
  {
    var x := s.slots[k % |s.slots|];
    if k < |s.pushed| then
      x == if k == |s.popped| && s.cons.Advancing? then None else Some(s.pushed[k])
    else
      x == if k == |s.pushed| && s.prod.Publishing? then Some(s.prod.v) else None
  }

  predicate CursorsOk<V>(s: State<V>) {
    && Capacity(|s.slots|) && |s.popped| <= |s.pushed| <= |s.popped| + |s.slots|
    && s.head == |s.popped| % WORD && s.tail == |s.pushed| % WORD
  }

  predicate EndsOk<V(==)>(s: State<V>) {
    && (s.prod.HaveTail? || s.prod.Writing? || s.prod.Publishing? ==> s.prod.tail == s.tail)
    && (s.prod.Writing? || s.prod.Publishing? ==> |s.pushed| < |s.popped| + |s.slots|)
    && (s.cons.HaveHead? || s.cons.Reading? || s.cons.Advancing? ==> s.cons.head == s.head)
    && (s.cons.Reading? || s.cons.Advancing? ==> |s.popped| < |s.pushed|)
    && (s.cons.Advancing? ==> |s.popped| < |s.pushed| && s.cons.v == s.pushed[|s.popped|])
  }

  ghost predicate Inv<V>(s: State<V>) {
    && CursorsOk(s) && EndsOk(s) && s.popped == s.pushed[..|s.popped|]
    && forall k {:trigger SlotOk(s, k)} :: |s.popped| <= k < |s.popped| + |s.slots| ==> SlotOk(s, k)
  }

  // The mask is the remainder, whichever side of the wrap the cursor is on.
  lemma MaskedIndex(k: nat, cap: nat)
    requires Capacity(cap)
    ensures Index(k % WORD, cap) == k % cap < cap
  {
    hide And, IsPow2;
    WordIsPow2();
    var q := Pow2Divides(cap, WORD);
    ModMod(k, cap, q, WORD);
    MaskIsMod(k % WORD, cap);
  }

  lemma SameSlots<V>(s: State<V>, s': State<V>)
    requires Inv(s) && s'.slots == s.slots && s'.pushed == s.pushed && s'.popped == s.popped
    requires s'.prod.Publishing? == s.prod.Publishing? && (s'.prod.Publishing? ==> s'.prod.v == s.prod.v)
    requires s'.cons.Advancing? == s.cons.Advancing?
    ensures forall k {:trigger SlotOk(s', k)} :: |s'.popped| <= k < |s'.popped| + |s'.slots| ==> SlotOk(s', k)
  {
    forall k | |s'.popped| <= k < |s'.popped| + |s'.slots| ensures SlotOk(s', k) { assert SlotOk(s, k); }
  }

  lemma LoadsKeep<V>(s: State<V>, s': State<V>)
    requires Inv(s) && |s.slots| > 0
    requires (s.prod.Offering? || s.prod.HaveTail?) && s' == ProducerStep(s)
    ensures Inv(s')
  {
    hide IsPow2, And;
    CursorDistance(|s.popped|, |s.pushed|);
    SameSlots(s, s');
  }

  // The producer's slot is empty: it overwrites no value.
  lemma WriteKeeps<V>(s: State<V>)
    requires Inv(s) && s.prod.Writing?
    ensures SlotOk(s, |s.pushed|) && s.slots[|s.pushed| % |s.slots|] == None && Inv(ProducerStep(s))
  {
    hide IsPow2, And, Index;
    var s', cap, t := ProducerStep(s), |s.slots|, |s.pushed|;
    assert SlotOk(s, t);
    MaskedIndex(t, cap);
    forall k | |s'.popped| <= k < |s'.popped| + |s'.slots|
      ensures SlotOk(s', k)
    {
      assert SlotOk(s, k);
      if k < t { ModApart(k, t, cap); } else if k > t { ModApart(t, k, cap); }
    }
  }

  lemma PublishKeeps<V>(s: State<V>)
    requires Inv(s) && s.prod.Publishing?
    ensures Inv(ProducerStep(s))
  {
    hide IsPow2, And;
    var s' := ProducerStep(s);
    assert (|s.pushed| % WORD + 1) % WORD == (|s.pushed| + 1) % WORD;
    forall k | |s'.popped| <= k < |s'.popped| + |s'.slots|
      ensures SlotOk(s', k)
    {
      assert SlotOk(s, k);
    }
  }

  lemma PeekKeeps<V>(s: State<V>, s': State<V>)
    requires Inv(s) && |s.slots| > 0
    requires (s.cons.Idle? || s.cons.HaveHead?) && s' == ConsumerStep(s)
    ensures Inv(s')
  {
    hide IsPow2, And;
    CursorDistance(|s.popped|, |s.pushed|);
    SameSlots(s, s');
  }

  // The consumer's slot holds the oldest value: it reads no garbage.
  lemma ReadKeeps<V>(s: State<V>)
    requires Inv(s) && s.cons.Reading?
    ensures s.slots[|s.popped| % |s.slots|] == Some(s.pushed[|s.popped|]) && Inv(ConsumerStep(s))
  {
    hide IsPow2, And, Index;
    var s', cap, h := ConsumerStep(s), |s.slots|, |s.popped|;
    assert SlotOk(s, h);
    MaskedIndex(h, cap);
    forall k | h <= k < h + cap
      ensures SlotOk(s', k)
    {
      assert SlotOk(s, k);
      if k > h { ModApart(h, k, cap); }
    }
  }

  lemma AdvanceKeeps<V>(s: State<V>)
    requires Inv(s) && s.cons.Advancing?
    ensures Inv(ConsumerStep(s))
  {
    hide IsPow2, And;
    var s', cap, h := ConsumerStep(s), |s.slots|, |s.popped|;
    assert (h % WORD + 1) % WORD == (h + 1) % WORD;
    assert SlotOk(s, h);
    forall k | |s'.popped| <= k < |s'.popped| + |s'.slots|
      ensures SlotOk(s', k)
    {
      if k < h + cap {
        assert SlotOk(s, k);
      } else {
        SamePlace(h, cap);
      }
    }
  }

  lemma SamePlace(h: nat, cap: nat)
    requires cap > 0
    ensures (h + cap) % cap == h % cap
  {
    var d, m := h / cap, h % cap;
    assert h == cap * d + m;
    Distribute(cap, d, 1);
    ModUnique(h + cap, cap, d + 1, m);
  }

  lemma StepKeepsInv<V>(s: State<V>, step: Step<V>, s': State<V>)
    requires Inv(s) && Next(s, step, s')
    ensures Inv(s') && |s'.slots| == |s.slots|
  {
    hide CursorsOk, EndsOk, SlotOk, Index;
    match step {
      case Offer(v) => OfferKeeps(s, s');
      case Produce =>
        if s.prod.Writing? { WriteKeeps(s); } else if s.prod.Publishing? { PublishKeeps(s); } else { LoadsKeep(s, s'); }
      case Consume =>
        if s.cons.Reading? { ReadKeeps(s); } else if s.cons.Advancing? { AdvanceKeeps(s); } else { PeekKeeps(s, s'); }
    }
  }

  lemma OfferKeeps<V>(s: State<V>, s': State<V>)
    requires Inv(s) && s.prod.Resting? && s'.prod.Offering? && s' == s.(prod := s'.prod)
    ensures Inv(s')
  {
    hide IsPow2, And;
    SameSlots(s, s');
  }

  // ---------------------------------------------------------------------------
  // Runs
  // ---------------------------------------------------------------------------

  predicate StepAt<V(==)>(states: seq<State<V>>, steps: seq<Step<V>>, k: nat) {
    k < |steps| && k + 1 < |states| && Next(states[k], steps[k], states[k + 1])
  }

  predicate Execution<V(==)>(states: seq<State<V>>, steps: seq<Step<V>>) {
    && |states| == |steps| + 1 && Init(states[0])
    && forall k {:trigger StepAt(states, steps, k)} :: 0 <= k < |steps| ==> StepAt(states, steps, k)
  }

  lemma {:induction false} AlwaysInv<V>(states: seq<State<V>>, steps: seq<Step<V>>, k: nat)
    requires Execution(states, steps) && k < |states|
    ensures Inv(states[k]) && |states[k].slots| == |states[0].slots|
  {
    hide Inv, Next;
    if k == 0 {
      InitInv(states[0]);
    } else {
      AlwaysInv(states, steps, k - 1);
      assert StepAt(states, steps, k - 1);
      StepKeepsInv(states[k - 1], steps[k - 1], states[k]);
    }
  }

  lemma InitInv<V>(s: State<V>)
    requires Init(s)
    ensures Inv(s)
  {
    hide IsPow2;
    forall k | 0 <= k < |s.slots| ensures SlotOk(s, k) {}
  }

  // First in, first out, and never more than the capacity in between.
  lemma PoppedIsPrefix<V>(states: seq<State<V>>, steps: seq<Step<V>>, k: nat)
    requires Execution(states, steps) && k < |states|
    ensures states[k].popped <= states[k].pushed && |states[k].pushed| - |states[k].popped| <= |states[0].slots|
  {
    hide Next, IsPow2;
    AlwaysInv(states, steps, k);
  }

  // A refused push found the ring full, a refused pop found it empty: the check
  // of the wrapped cursors says exactly that at the moment of the load.
  lemma RefusalsAreRight<V>(states: seq<State<V>>, steps: seq<Step<V>>, k: nat)
    requires Execution(states, steps) && k < |states|
    ensures
      var s := states[k];
      && |s.slots| > 0
      && (s.prod.HaveTail? ==> (ProducerStep(s).prod.Resting? <==> |s.pushed| - |s.popped| == |s.slots|))
      && (s.cons.HaveHead? ==> (ConsumerStep(s).cons.Idle? <==> |s.pushed| == |s.popped|))
  {
    hide Next, And;
    AlwaysInv(states, steps, k);
    CursorDistance(|states[k].popped|, |states[k].pushed|);
  }

  // The slot about to be written is empty and the slot about to be read holds
  // the oldest value not delivered yet, so no value is lost or delivered twice.
  lemma SlotsAreSafe<V>(states: seq<State<V>>, steps: seq<Step<V>>, k: nat)
    requires Execution(states, steps) && k < |states|
    ensures
      var s := states[k];
      && Capacity(|s.slots|)
      && (s.prod.Writing? ==>
            Index(s.prod.tail, |s.slots|) < |s.slots| && s.slots[Index(s.prod.tail, |s.slots|)] == None)
      && (s.cons.Reading? ==>
            && |s.popped| < |s.pushed| && Index(s.cons.head, |s.slots|) < |s.slots|
            && s.slots[Index(s.cons.head, |s.slots|)] == Some(s.pushed[|s.popped|]))
  {
    hide Next, IsPow2, Index, SlotOk;
    AlwaysInv(states, steps, k);
    var s := states[k];
    MaskedIndex(|s.pushed|, |s.slots|);
    MaskedIndex(|s.popped|, |s.slots|);
    if s.prod.Writing? { WriteKeeps(s); }
    if s.cons.Reading? { ReadKeeps(s); }
  }

  // ---------------------------------------------------------------------------
  // What was offered is what is delivered
  // ---------------------------------------------------------------------------

  // The step refuses the offered value: the producer finds the ring full.
  predicate Refuses<V(==)>(s: State<V>, step: Step<V>) {
    step.Produce? && s.prod.HaveTail? && WrappingSub(s.prod.tail, s.head) == |s.slots|
  }

  // The values offered so far, without the refused ones, after one more step.
  function Offers<V(==)>(before: seq<V>, s: State<V>, step: Step<V>): seq<V> {
    if step.Offer? then before + [step.v]
    else if Refuses(s, step) && before != [] then before[..|before| - 1]
    else before
  }

  // The values of the `Offer` steps so far, in order, without the refused ones.
  function Offered<V(==)>(states: seq<State<V>>, steps: seq<Step<V>>, k: nat): seq<V>
    requires k <= |steps| < |states|
  {
    if k == 0 then [] else Offers(Offered(states, steps, k - 1), states[k - 1], steps[k - 1])
  }

  // The value a push is under way with.
  function UnderWay<V>(p: Producer<V>): seq<V> {
    if p.Resting? then [] else [p.v]
  }

  lemma OfferStep<V>(s: State<V>, step: Step<V>, s': State<V>)
    requires Next(s, step, s')
    ensures Offers(s.pushed + UnderWay(s.prod), s, step) == s'.pushed + UnderWay(s'.prod)
  {
    hide IsPow2, Index, Put, WrappingSub;
    var before := s.pushed + UnderWay(s.prod);
    if step.Produce? {
      assert before[..|before| - 1] == s.pushed;
    } else if step.Consume? {
      assert s'.pushed == s.pushed && s'.prod == s.prod;
    }
  }

  // Every offered value that is not refused is pushed, in order, once the push has
  // ended; the one under way is the last.
  lemma {:induction false} OfferedIsPushed<V>(states: seq<State<V>>, steps: seq<Step<V>>, k: nat)
    requires Execution(states, steps) && k < |states|
    ensures Offered(states, steps, k) == states[k].pushed + UnderWay(states[k].prod)
  {
    hide Next, Offers, IsPow2;
    if k > 0 {
      OfferedIsPushed(states, steps, k - 1);
      assert StepAt(states, steps, k - 1);
      OfferStep(states[k - 1], steps[k - 1], states[k]);
    }
  }

  // Step `k` lets a pop have a value: the consumer does not find the ring empty.
  predicate Grants<V(==)>(states: seq<State<V>>, steps: seq<Step<V>>, k: nat)
    requires k < |steps| && k < |states|
  {
    steps[k].Consume? && states[k].cons.HaveHead? && states[k].cons.head != states[k].tail
  }

  function Granted<V(==)>(states: seq<State<V>>, steps: seq<Step<V>>, k: nat): nat
    requires k <= |steps| < |states|
  {
    if k == 0 then 0 else Granted(states, steps, k - 1) + (if Grants(states, steps, k - 1) then 1 else 0)
  }

  // Every pop that does not find the ring empty delivers a value.
  lemma {:induction false} GrantedIsPopped<V>(states: seq<State<V>>, steps: seq<Step<V>>, k: nat)
    requires Execution(states, steps) && k < |states|
    ensures Granted(states, steps, k) ==
            |states[k].popped| + (if states[k].cons.Reading? || states[k].cons.Advancing? then 1 else 0)
  {
    hide IsPow2, Index, Put;
    if k > 0 {
      GrantedIsPopped(states, steps, k - 1);
      assert StepAt(states, steps, k - 1);
    }
  }

  // With both ends at rest: what was offered and not refused is what has been
  // popped, as often as a pop was granted, and then what the ring still holds.
  lemma NothingLost<V>(states: seq<State<V>>, steps: seq<Step<V>>, k: nat)
    requires Execution(states, steps) && k < |states| && states[k].prod.Resting? && states[k].cons.Idle?
    ensures
      var s, offered := states[k], Offered(states, steps, k);
      && |s.popped| == Granted(states, steps, k) <= |offered| && s.popped == offered[..|s.popped|]
      && Window(s.slots, |s.popped|, offered[|s.popped|..])
  {
    hide Next, IsPow2, Window, Offers, Grants;
    OfferedIsPushed(states, steps, k);
    GrantedIsPopped(states, steps, k);
    PoppedIsPrefix(states, steps, k);
    AtRest(states, steps, k);
    assert states[k].pushed + [] == states[k].pushed;
  }

  function ProducerLeft<V>(p: Producer<V>): nat {
    match p
    case Resting => 0
    case Offering(_) => 4
    case HaveTail(_, _) => 3
    case Writing(_, _) => 2
    case Publishing(_, _) => 1
  }

  function ConsumerLeft<V>(c: Consumer<V>): nat {
    match c
    case Idle => 0
    case HaveHead(_) => 3
    case Reading(_) => 2
    case Advancing(_, _) => 1
  }

  // A push ends after at most four steps of its own, a pop after three more than
  // its first, whatever the other end does.
  lemma WaitFree<V>(states: seq<State<V>>, steps: seq<Step<V>>, k: nat)
    requires Execution(states, steps) && k < |steps|
    ensures
      var s, s' := states[k], states[k + 1];
      && (steps[k].Produce? ==> ProducerLeft(s'.prod) < ProducerLeft(s.prod) && s'.cons == s.cons)
      && (steps[k].Consume? && !s.cons.Idle? ==> ConsumerLeft(s'.cons) < ConsumerLeft(s.cons))
      && (steps[k].Consume? ==> s'.prod == s.prod && (s.cons.Idle? ==> ConsumerLeft(s'.cons) == 3))
  {
    hide IsPow2, Index, Capacity;
    assert StepAt(states, steps, k);
    SlotsAreSafe(states, steps, k);
  }

  // ---------------------------------------------------------------------------
  // The ring as an object
  // ---------------------------------------------------------------------------

  // Counters `taken ..` number the values in the ring, and the slots hold nothing else.
  function Wrap(k: nat, cap: nat): nat
    requires cap > 0
  {
    k % cap
  }

  // A cursor: a counter as the word it is kept in.
  function Cursor(k: nat): nat { k % WORD }

  // `wrapping_add(1)`
  function Bump(c: nat): nat { (c + 1) % WORD }

  lemma Cursors(x: nat, y: nat, cap: nat)
    requires x <= y < x + WORD && Capacity(cap)
    ensures WrappingSub(Cursor(y), Cursor(x)) == y - x && (Cursor(x) == Cursor(y) <==> x == y)
    ensures Bump(Cursor(x)) == Cursor(x + 1) && Bump(Cursor(y)) == Cursor(y + 1)
    ensures cap > 0 && Index(Cursor(x), cap) == Wrap(x, cap) < cap && Index(Cursor(y), cap) == Wrap(y, cap) < cap
  {
    hide Cursor, Bump, WrappingSub, Index, Wrap, Capacity;
    Distances(x, y);
    Bumped(x);
    Bumped(y);
    Masked(x, cap);
    Masked(y, cap);
  }

  lemma Distances(x: nat, y: nat)
    requires x <= y < x + WORD
    ensures WrappingSub(Cursor(y), Cursor(x)) == y - x && (Cursor(x) == Cursor(y) <==> x == y)
  {
    CursorDistance(x, y);
  }

  lemma Bumped(x: nat)
    ensures Bump(Cursor(x)) == Cursor(x + 1)
  {
  }

  lemma Masked(x: nat, cap: nat)
    requires Capacity(cap)
    ensures cap > 0 && Index(Cursor(x), cap) == Wrap(x, cap) < cap
  {
    hide Index;
    MaskedIndex(x, cap);
  }

  predicate Slotted<V(==)>(slots: Slots<V>, taken: nat, contents: seq<V>, k: nat) {
    |slots| > 0 && slots[k % |slots|] == if 0 <= k - taken < |contents| then Some(contents[k - taken]) else None
  }

  ghost predicate Window<V>(slots: Slots<V>, taken: nat, contents: seq<V>) {
    && |contents| <= |slots|
    && forall k {:trigger Slotted(slots, taken, contents, k)} :: taken <= k < taken + |slots| ==>
        Slotted(slots, taken, contents, k)
  }

  // With both ends at rest the slots hold exactly the values pushed and not yet
  // popped; `Drop` of such a ring (below) drops those, so every value is
  // delivered or dropped exactly once.
  lemma AtRest<V>(states: seq<State<V>>, steps: seq<Step<V>>, k: nat)
    requires Execution(states, steps) && k < |states| && states[k].prod.Resting? && states[k].cons.Idle?
    ensures
      var s := states[k];
      && Capacity(|s.slots|) && |s.popped| <= |s.pushed| && s.popped + s.pushed[|s.popped|..] == s.pushed
      && Window(s.slots, |s.popped|, s.pushed[|s.popped|..])
      && s.head == Cursor(|s.popped|) && s.tail == Cursor(|s.pushed|)
  {
    hide Next, IsPow2;
    AlwaysInv(states, steps, k);
    var s := states[k];
    var h, rest := |s.popped|, s.pushed[|s.popped|..];
    forall j | h <= j < h + |s.slots|
      ensures Slotted(s.slots, h, rest, j)
    {
      assert SlotOk(s, j);
    }
  }

  lemma PushWindow<V>(slots: Slots<V>, taken: nat, contents: seq<V>, v: V, i: nat)
    requires Window(slots, taken, contents) && |contents| < |slots| && i == Wrap(taken + |contents|, |slots|)
    ensures i < |slots| && Window(slots[i := Some(v)], taken, contents + [v])
  {
    var t, slots', contents' := taken + |contents|, slots[i := Some(v)], contents + [v];
    forall k | taken <= k < taken + |slots|
      ensures Slotted(slots', taken, contents', k)
    {
      assert Slotted(slots, taken, contents, k);
      if k < t { ModApart(k, t, |slots|); } else if k > t { ModApart(t, k, |slots|); }
    }
  }

  lemma PopWindow<V>(slots: Slots<V>, taken: nat, contents: seq<V>, i: nat)
    requires Window(slots, taken, contents) && contents != [] && |slots| > 0 && i == Wrap(taken, |slots|)
    ensures i < |slots| && slots[i] == Some(contents[0]) && Window(slots[i := None], taken + 1, contents[1..])
  {
    var slots', contents' := slots[i := None], contents[1..];
    assert Slotted(slots, taken, contents, taken);
    var h := taken + 1;
    forall k | h <= k < h + |slots|
      ensures Slotted(slots', h, contents', k)
    {
      if k < taken + |slots| {
        assert Slotted(slots, taken, contents, k);
        ModApart(taken, k, |slots|);
      } else {
        SamePlace(taken, |slots|);
      }
    }
  }

  lemma EmptyWindow<V>(slots: Slots<V>, taken: nat)
    requires Window(slots, taken, [])
    ensures forall x :: 0 <= x < |slots| ==> slots[x] == None
  {
    forall x | 0 <= x < |slots|
      ensures slots[x] == None
    {
      var j := EverySlot(x, taken, |slots|);
      assert Slotted(slots, taken, [], j);
    }
  }

  lemma FreshWindow<V>(slots: Slots<V>)
    requires |slots| > 0 && forall x :: 0 <= x < |slots| ==> slots[x] == None
    ensures Window(slots, 0, [])
  {
  }

  // Every slot is the slot of some counter in a window of `cap` counters.
  lemma {:induction false} EverySlot(x: nat, h: nat, cap: nat) returns (j: nat)
    requires x < cap
    ensures h <= j < h + cap && j % cap == x
    decreases h
  {
    if h == 0 {
      j := x;
      ModUnique(x, cap, 0, x);
    } else {
      j := EverySlot(x, h - 1, cap);
      if j == h - 1 {
        SamePlace(j, cap);
        j := j + cap;
      }
    }
  }

  class Ring<V> {
    const buf: array<Option<V>>
    const mask: nat
    var head: nat
    var tail: nat
    ghost var taken: nat              // how many values have left the ring
    ghost var contents: seq<V>

    ghost predicate Valid()
      reads this, buf
    {
      && Capacity(buf.Length) && mask == buf.Length - 1 && Window(buf[..], taken, contents)
      && head == Cursor(taken) && tail == Cursor(taken + |contents|)
    }

    constructor (capacity: nat)
      requires Capacity(capacity)
      ensures Valid() && fresh(buf) && buf.Length == capacity && contents == []
    {
      buf := new Option<V>[capacity](_ => None);
      mask, head, tail, taken, contents := capacity - 1, 0, 0, 0, [];
      new;
      FreshWindow(buf[..]);
    }

    method Push(v: V) returns (ok: bool)
      requires Valid()
      modifies this`tail, this`contents, buf
      ensures Valid() && ok == (|old(contents)| < buf.Length)
      ensures contents == if ok then old(contents) + [v] else old(contents)
    {
      hide Capacity, Window, Index, Wrap, Cursor, Bump, WrappingSub;
      ghost var t := taken + |contents|;
      Fits(buf[..], taken, contents);
      Cursors(taken, t, buf.Length);
      if WrappingSub(tail, head) == buf.Length { return false; }
      var i := Index(tail, mask + 1);
      PushWindow(buf[..], taken, contents, v, i);
      buf[i] := Some(v);
      assert buf[..] == old(buf[..])[i := Some(v)];
      tail := Bump(tail);
      contents := contents + [v];
      return true;
    }

    method Pop() returns (r: Option<V>)
      requires Valid()
      modifies this`head, this`taken, this`contents, buf
      ensures Valid() && r == if old(contents) == [] then None else Some(old(contents)[0])
      ensures contents == if old(contents) == [] then [] else old(contents)[1..]
    {
      hide Capacity, Window, Index, Wrap, Cursor, Bump, WrappingSub;
      Fits(buf[..], taken, contents);
      Cursors(taken, taken + |contents|, buf.Length);
      if head == tail { return None; }
      var i := Index(head, mask + 1);
      PopWindow(buf[..], taken, contents, i);
      r := buf[i];
      buf[i] := None;
      assert buf[..] == old(buf[..])[i := None];
      head := Bump(head);
      contents, taken := contents[1..], taken + 1;
    }

    // Up to `max` values, in order.
    method Drain(max: nat) returns (out: seq<V>)
      requires Valid()
      modifies this`head, this`taken, this`contents, buf
      ensures Valid() && old(contents) == out + contents
      ensures |out| == if max < |old(contents)| then max else |old(contents)|
    {
      hide Valid;
      out := [];
      while |out| < max
        invariant Valid() && |out| <= max && old(contents) == out + contents
        decreases max - |out|
      {
        var r := Pop();
        if r.None? { break; }
        out := out + [r.value];
      }
    }

    // `Drop`: every value still queued is dropped, each once, and no slot is left initialized.
    method Drop() returns (dropped: seq<V>)
      requires Valid()
      modifies buf
      ensures dropped == contents && forall i :: 0 <= i < buf.Length ==> buf[i] == None
    {
      hide Capacity, Window, Index, Wrap, Cursor, Bump, WrappingSub;
      dropped := [];
      var i := head;
      ghost var k := taken;
      Fits(buf[..], taken, contents);
      while i != tail
        invariant taken <= k <= taken + |contents| < taken + WORD && i == Cursor(k)
        invariant dropped == contents[..k - taken] && Window(buf[..], k, contents[k - taken..])
        decreases taken + |contents| - k
      {
        Cursors(k, taken + |contents|, buf.Length);
        var x := Index(i, mask + 1);
        ghost var slots := buf[..];
        PopWindow(slots, k, contents[k - taken..], x);
        dropped := dropped + [buf[x].value];
        buf[x] := None;
        assert buf[..] == slots[x := None];
        assert contents[k - taken..][1..] == contents[k + 1 - taken..];
        i := Bump(i);
        k := k + 1;
      }
      Cursors(k, taken + |contents|, buf.Length);
      assert contents[k - taken..] == [];
      EmptyWindow(buf[..], k);
    }
  }

  // `channel`: at least two slots, a power of two, the fewest that hold
  // `capacity` values.  `slot` is the size of a slot in bytes, 0 for a type
  // without data.  There is no ring, because the call panics, exactly if the
  // number of slots is not a word or they would take 2^63 bytes or more.
  method Channel<V>(capacity: nat, slot: nat) returns (r: Option<Ring<V>>)
    requires capacity < WORD
    ensures var n := NextPow2(if capacity < 2 then 2 else capacity);
            r.Some? <==> n < WORD && n * slot < WORD / 2
    ensures r.Some? ==> r.value.Valid() && fresh(r.value) && fresh(r.value.buf) && r.value.contents == []
    ensures r.Some? ==>
      var n := r.value.buf.Length;
      n >= 2 && capacity <= n && IsPow2(n) && forall p: nat :: IsPow2(p) && p >= 2 && p >= capacity ==> n <= p
  {
    hide IsPow2;
    var n := NextPow2(if capacity < 2 then 2 else capacity);
    if n >= WORD || n * slot >= WORD / 2 { return None; }
    var ring := new Ring<V>(n);
    forall p: nat | IsPow2(p) && p >= 2 && p >= capacity ensures n <= p {
      LeastPow2(if capacity < 2 then 2 else capacity, p);
    }
    r := Some(ring);
  }

  lemma Fits<V>(slots: Slots<V>, taken: nat, contents: seq<V>)
    requires Window(slots, taken, contents) && Capacity(|slots|)
    ensures 0 < |slots| < WORD && |contents| <= |slots|
  {
  }
}
