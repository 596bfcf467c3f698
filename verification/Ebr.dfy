/** Epoch-based reclamation as a protocol of atomic steps.
  *
  * Three kinds of actors interleave arbitrarily, any number of each: threads
  * that register a slot, pin and unpin; retirers that unlink an object and
  * retire it; collectors that scan, advance the epoch and reclaim.  Every load,
  * store, compare-and-swap and swap of the source is one step, except that the
  * retry loop of a push onto a bag is the one step of its successful swap.
  *
  * Two parts of the state are history variables that no step reads: the ledger
  * (where each unlinked object is, and with which epoch it was tagged), and
  * what a guard remembers about the moment its slot was published.
  */
module Ebr {

  type Obj = nat
  type Id = nat

  const N_SLOTS: nat := 4096
  const N_BAGS: nat := 3
  const FREE: nat := 0xFFFF_FFFF_FFFF_FFFF
  const UNPINNED: nat := 0x4000_0000_0000_0000   // 1 << 62

  datatype Record = Record(obj: Obj, epoch: nat)

  datatype Place = AtRetirer(r: Id) | InBag(b: nat) | AtCollector(c: Id) | Freed
  datatype Entry = Entry(place: Place, tag: int)   // tag -1: epoch not loaded yet

  type Ledger = map<Obj, Entry>

  datatype Shared = Shared(
    epoch: nat, slots: seq<nat>, hwm: nat, bags: seq<seq<Record>>,
    freed: seq<Obj>, ledger: Ledger)

  // A thread; a guard is live exactly in `Pinned`.
  datatype Pinner =
    | Unregistered
    | Probe(i: nat)
    | Claim(i: nat)
    | Raise(i: nat)
    | Ready(i: nat)
    | Read(i: nat, e: nat)
    | Pinned(i: nat, e: nat, at: nat, safe: set<Obj>, held: set<Obj>)
    | Panicked

  datatype Retirer = Resting | Unlinked(o: Obj) | Tagged(o: Obj, e: nat)

  datatype Collector =
    | Dormant
    | Loaded(g: nat)
    | Scan(g: nat, hwm: nat, i: nat)
    | Advance(g: nat)
    | LoadCur
    | Swap(cur: nat, b: nat)
    | Sift(cur: nat, b: nat, todo: seq<Record>, keep: seq<Record>)
    | Repush(cur: nat, b: nat, keep: seq<Record>)

  datatype State = State(
    g: Shared, pinners: map<Id, Pinner>, retirers: map<Id, Retirer>, collectors: map<Id, Collector>)

  // ---------------------------------------------------------------------------
  // Steps of a thread
  // ---------------------------------------------------------------------------

  datatype PinAct = Walk | Acquire(o: Obj) | Drop

  predicate PinEnabled(g: Shared, p: Pinner, a: PinAct) {
    match a
    case Walk => !p.Pinned? && !p.Panicked? && |g.slots| == N_SLOTS && (p.Claim? || p.Read? ==> p.i < N_SLOTS)
    case Acquire(o) => p.Pinned? && o !in p.safe   // any pointer but one retired before the slot was published
    case Drop => p.Pinned? && p.i < |g.slots|
  }

  // The objects whose retirer has loaded its epoch already.
  function Retirees(ledger: Ledger): set<Obj> {
    set o | o in ledger && ledger[o].tag != -1
  }

  function Pin(g: Shared, p: Pinner, a: PinAct): (Pinner, Shared)
    requires PinEnabled(g, p, a)
  {
    match a
    case Acquire(o) => (p.(held := p.held + {o}), g)
    case Drop => (Ready(p.i), g.(slots := g.slots[p.i := UNPINNED]))
    case Walk =>
      match p
      case Unregistered => (Probe(0), g)
      case Probe(i) =>
        if i >= N_SLOTS then (Panicked, g)
        else if g.slots[i] == FREE then (Claim(i), g) else (Probe(i + 1), g)
      case Claim(i) =>
        if g.slots[i] == FREE then (Raise(i), g.(slots := g.slots[i := UNPINNED])) else (Probe(i + 1), g)
      case Raise(i) => (Ready(i), g.(hwm := if g.hwm < i then i else g.hwm))
      case Ready(i) => (Read(i, g.epoch), g)
      case Read(i, e) => (Pinned(i, e, g.epoch, Retirees(g.ledger), {}), g.(slots := g.slots[i := e]))
  }

  // ---------------------------------------------------------------------------
  // Steps of a retirer: unlink, load the epoch, push
  // ---------------------------------------------------------------------------

  predicate RetireEnabled(g: Shared, r: Retirer, o: Obj) {
    |g.bags| == N_BAGS &&
    match r
    case Resting => o !in g.ledger
    case Unlinked(o') => o' in g.ledger
    case Tagged(o', _) => o' in g.ledger
  }

  function Retire(g: Shared, me: Id, r: Retirer, o: Obj): (Retirer, Shared)
    requires RetireEnabled(g, r, o)
  {
    match r
    case Resting => (Unlinked(o), g.(ledger := g.ledger[o := Entry(AtRetirer(me), -1)]))
    case Unlinked(o') =>
      (Tagged(o', g.epoch), g.(ledger := g.ledger[o' := g.ledger[o'].(tag := g.epoch)]))
    case Tagged(o', e) =>
      var b := e % N_BAGS;
      (Resting, g.(bags := g.bags[b := [Record(o', e)] + g.bags[b]],
                   ledger := g.ledger[o' := Entry(InBag(b), e)]))
  }

  // ---------------------------------------------------------------------------
  // Steps of a collector
  // ---------------------------------------------------------------------------

  predicate IsPinned(v: nat) { v != FREE && v != UNPINNED }

  // `epoch.saturating_add(2) <= cur`
  predicate Eligible(r: Record, cur: nat) {
    (if r.epoch + 2 <= FREE then r.epoch + 2 else FREE) <= cur
  }

  predicate CollectEnabled(g: Shared, c: Collector) {
    && |g.slots| == N_SLOTS && |g.bags| == N_BAGS
    && (c.Swap? ==> c.b < N_BAGS) && (c.Repush? ==> c.b < N_BAGS)
  }

  function NextBag(cur: nat, b: nat): Collector {
    if b + 1 < N_BAGS then Swap(cur, b + 1) else Dormant
  }

  function Detach(ledger: Ledger, b: nat, c: Id): Ledger {
    map o | o in ledger ::
      if ledger[o].place == InBag(b) then ledger[o].(place := AtCollector(c)) else ledger[o]
  }

  function Collect(g: Shared, me: Id, c: Collector): (Collector, Shared)
    requires CollectEnabled(g, c)
  {
    match c
    case Dormant => (Loaded(g.epoch), g)
    case Loaded(e) => (Scan(e, if g.hwm < N_SLOTS then g.hwm else N_SLOTS - 1, 0), g)
    case Scan(e, hwm, i) =>
      if i > hwm || i >= N_SLOTS then (Advance(e), g)
      else if IsPinned(g.slots[i]) && g.slots[i] != e then (LoadCur, g)
      else (Scan(e, hwm, i + 1), g)
    case Advance(e) => (LoadCur, if g.epoch == e then g.(epoch := e + 1) else g)
    case LoadCur => (Swap(g.epoch, 0), g)
    case Swap(cur, b) =>
      (Sift(cur, b, g.bags[b], []), g.(bags := g.bags[b := []], ledger := Detach(g.ledger, b, me)))
    case Sift(cur, b, todo, keep) =>
      if todo == [] then (Repush(cur, b, keep), g)
      else if Eligible(todo[0], cur) then
        (Sift(cur, b, todo[1..], keep),
         g.(freed := g.freed + [todo[0].obj],
            ledger := g.ledger[todo[0].obj := Entry(Freed, todo[0].epoch)]))
      else (Sift(cur, b, todo[1..], [todo[0]] + keep), g)
    case Repush(cur, b, keep) =>
      if keep == [] then (NextBag(cur, b), g)
      else (Repush(cur, b, keep[1..]),
            g.(bags := g.bags[b := [keep[0]] + g.bags[b]],
               ledger := g.ledger[keep[0].obj := Entry(InBag(b), keep[0].epoch)]))
  }

  // ---------------------------------------------------------------------------
  // Runs
  // ---------------------------------------------------------------------------

  datatype Step = PinStep(t: Id, a: PinAct) | RetireStep(r: Id, o: Obj) | CollectStep(c: Id)

  ghost predicate Next(s: State, step: Step, s': State) {
    match step
    case PinStep(t, a) =>
      && t in s.pinners && PinEnabled(s.g, s.pinners[t], a)
      && var (p, g) := Pin(s.g, s.pinners[t], a);
      s' == s.(g := g, pinners := s.pinners[t := p])
    case RetireStep(r, o) =>
      && r in s.retirers && RetireEnabled(s.g, s.retirers[r], o)
      && var (q, g) := Retire(s.g, r, s.retirers[r], o);
      s' == s.(g := g, retirers := s.retirers[r := q])
    case CollectStep(c) =>
      && c in s.collectors && CollectEnabled(s.g, s.collectors[c])
      && var (q, g) := Collect(s.g, c, s.collectors[c]);
      s' == s.(g := g, collectors := s.collectors[c := q])
  }

  ghost predicate Init(s: State) {
    && s.g == Shared(0, seq(N_SLOTS, _ => FREE), 0, [[], [], []], [], map[])
    && (forall t :: t in s.pinners ==> s.pinners[t].Unregistered?)
    && (forall r :: r in s.retirers ==> s.retirers[r].Resting?)
    && (forall c :: c in s.collectors ==> s.collectors[c].Dormant?)
  }

  ghost predicate Stepped(s: State, s': State) {
    exists step :: Next(s, step, s')
  }

  ghost predicate StepAt(run: seq<State>, i: int) {
    0 <= i < |run| - 1 && Stepped(run[i], run[i + 1])
  }

  ghost predicate Behavior(run: seq<State>) {
    && |run| > 0 && Init(run[0])
    && forall i {:trigger StepAt(run, i)} :: 0 <= i < |run| - 1 ==> StepAt(run, i)
  }

  // ---------------------------------------------------------------------------
  // Part one of the invariant: guards
  // ---------------------------------------------------------------------------

  // The slot a thread has claimed, if any.
  function SlotOf(p: Pinner): int {
    if p.Raise? || p.Ready? || p.Read? || p.Pinned? then p.i else -1
  }

  predicate PinnerOk(g: Shared, p: Pinner) {
    && |g.slots| == N_SLOTS && g.hwm < N_SLOTS
    && (p.Claim? ==> p.i < N_SLOTS)
    && (SlotOf(p) >= 0 ==> p.i < N_SLOTS)
    && (p.Raise? || p.Ready? || p.Read? ==> g.slots[p.i] == UNPINNED)
    && (p.Ready? || p.Read? || p.Pinned? ==> p.i <= g.hwm)
    && (p.Read? ==> p.e <= g.epoch)
    && (p.Pinned? ==> g.slots[p.i] == p.e && p.e <= p.at <= g.epoch <= p.at + 1)
  }

  // What a guard knows: objects outside `safe` were still linked or not yet
  // tagged when its slot was published, so they are tagged no earlier than that
  // and are not freed.
  ghost predicate Guards(g: Shared, p: Pinner) {
    p.Pinned? ==>
      && p.held !! p.safe && p.safe <= Retirees(g.ledger)
      && (forall o :: o in g.ledger && o !in p.safe && g.ledger[o].tag != -1 ==> p.at <= g.ledger[o].tag)
      && (forall o :: o in g.ledger && g.ledger[o].place.Freed? ==> o in p.safe)
  }

  // A guard older than a collector's epoch is still ahead of its scan.
  predicate Ahead(p: Pinner, c: Collector) {
    && (p.Pinned? && c.Scan? && p.at < c.g ==> c.i <= p.i <= c.hwm)
    && (p.Pinned? && c.Advance? ==> c.g <= p.at)
  }

  predicate CollectorOk(g: Shared, c: Collector) {
    && |g.bags| == N_BAGS
    && (c.Loaded? || c.Scan? || c.Advance? ==> c.g <= g.epoch)
    && (c.Scan? ==> c.hwm < N_SLOTS)
    && (c.Swap? || c.Sift? || c.Repush? ==> c.cur <= g.epoch && c.b < N_BAGS)
  }

  // ---------------------------------------------------------------------------
  // Part two: every unlinked object is in exactly one place
  // ---------------------------------------------------------------------------

  ghost predicate Lists(ledger: Ledger, place: Place, recs: seq<Record>) {
    && (forall i :: 0 <= i < |recs| ==>
          recs[i].obj in ledger && ledger[recs[i].obj] == Entry(place, recs[i].epoch))
    && (forall i, j :: 0 <= i < j < |recs| ==> recs[i].obj != recs[j].obj)
    && (forall o :: o in ledger && ledger[o].place == place ==> Among(recs, o))
  }

  ghost predicate Among(recs: seq<Record>, o: Obj) {
    exists i :: 0 <= i < |recs| && recs[i].obj == o
  }

  function Hoard(c: Collector): seq<Record> {
    match c
    case Sift(_, _, todo, keep) => todo + keep
    case Repush(_, _, keep) => keep
    case _ => []
  }

  ghost predicate RetirerOk(g: Shared, me: Id, r: Retirer) {
    match r
    case Resting => forall o :: o in g.ledger ==> g.ledger[o].place != AtRetirer(me)
    case Unlinked(o) =>
      && o in g.ledger && g.ledger[o] == Entry(AtRetirer(me), -1)
      && forall o' :: o' in g.ledger && g.ledger[o'].place == AtRetirer(me) ==> o' == o
    case Tagged(o, e) =>
      && o in g.ledger && g.ledger[o] == Entry(AtRetirer(me), e)
      && forall o' :: o' in g.ledger && g.ledger[o'].place == AtRetirer(me) ==> o' == o
  }

  ghost predicate FreedOk(g: Shared) {
    && (forall i :: 0 <= i < |g.freed| ==> g.freed[i] in g.ledger && g.ledger[g.freed[i]].place.Freed?)
    && (forall i, j :: 0 <= i < j < |g.freed| ==> g.freed[i] != g.freed[j])
    && (forall o :: o in g.ledger && g.ledger[o].place.Freed? ==> o in g.freed && g.ledger[o].tag >= 0)
  }

  ghost predicate BagsOk(g: Shared) {
    && |g.bags| == N_BAGS
    && forall b :: 0 <= b < N_BAGS ==> Lists(g.ledger, InBag(b), g.bags[b])
  }

  // Where the ledger says an object is, there is such a place.
  predicate Located(s: State, o: Obj)
    requires o in s.g.ledger
  {
    match s.g.ledger[o].place
    case AtRetirer(r) => r in s.retirers
    case InBag(b) => b < N_BAGS
    case AtCollector(c) => c in s.collectors
    case Freed => true
  }

  ghost predicate GuardInv(s: State) {
    && (forall t :: t in s.pinners ==> PinnerOk(s.g, s.pinners[t]) && Guards(s.g, s.pinners[t]))
    && (forall t, u :: t in s.pinners && u in s.pinners && t != u && SlotOf(s.pinners[t]) >= 0 ==>
          SlotOf(s.pinners[t]) != SlotOf(s.pinners[u]))
    && (forall t, c :: t in s.pinners && c in s.collectors ==> Ahead(s.pinners[t], s.collectors[c]))
  }

  ghost predicate PlaceInv(s: State) {
    && BagsOk(s.g) && FreedOk(s.g)
    && |s.g.slots| == N_SLOTS && s.g.hwm < N_SLOTS
    && (forall r :: r in s.retirers ==> RetirerOk(s.g, r, s.retirers[r]))
    && (forall c :: c in s.collectors ==>
          CollectorOk(s.g, s.collectors[c]) && Lists(s.g.ledger, AtCollector(c), Hoard(s.collectors[c])))
    && (forall o :: o in s.g.ledger ==> Located(s, o))
  }

  ghost predicate Inv(s: State) {
    GuardInv(s) && PlaceInv(s)
  }

  // ---------------------------------------------------------------------------
  // Moving records about
  // ---------------------------------------------------------------------------

  lemma ListsElsewhere(ledger: Ledger, o: Obj, e: Entry, place: Place, recs: seq<Record>)
    requires Lists(ledger, place, recs) && e.place != place && (o in ledger ==> ledger[o].place != place)
    ensures Lists(ledger[o := e], place, recs)
  {
  }

  lemma ListsPush(ledger: Ledger, r: Record, place: Place, recs: seq<Record>)
    requires Lists(ledger, place, recs) && (r.obj in ledger ==> ledger[r.obj].place != place)
    ensures Lists(ledger[r.obj := Entry(place, r.epoch)], place, [r] + recs)
  {
    var recs' := [r] + recs;
    forall o | Among(recs, o) ensures Among(recs', o) {
      var i :| 0 <= i < |recs| && recs[i].obj == o;
      assert recs'[i + 1].obj == o;
    }
    assert recs'[0].obj == r.obj;
  }

  lemma ListsPop(ledger: Ledger, place: Place, recs: seq<Record>, e: Entry)
    requires recs != [] && Lists(ledger, place, recs) && e.place != place
    ensures Lists(ledger[recs[0].obj := e], place, recs[1..])
  {
    forall o | Among(recs, o) && o != recs[0].obj ensures Among(recs[1..], o) {
      var i :| 0 <= i < |recs| && recs[i].obj == o;
      assert recs[1..][i - 1].obj == o;
    }
  }

  lemma ListsPopFront(ledger: Ledger, place: Place, todo: seq<Record>, keep: seq<Record>, e: Entry)
    requires todo != [] && Lists(ledger, place, todo + keep) && e.place != place
    ensures Lists(ledger[todo[0].obj := e], place, todo[1..] + keep)
  {
    ListsPop(ledger, place, todo + keep, e);
    assert (todo + keep)[1..] == todo[1..] + keep;
  }

  lemma ListsRotate(ledger: Ledger, place: Place, todo: seq<Record>, keep: seq<Record>)
    requires todo != [] && Lists(ledger, place, todo + keep)
    ensures Lists(ledger, place, todo[1..] + ([todo[0]] + keep))
  {
    var recs, recs' := todo + keep, todo[1..] + ([todo[0]] + keep);
    var n := |todo| - 1;
    forall i | 0 <= i < |recs'| ensures recs'[i] == recs[if i < n then i + 1 else if i == n then 0 else i] {}
    forall o | Among(recs, o) ensures Among(recs', o) {
      var i :| 0 <= i < |recs| && recs[i].obj == o;
      assert recs'[if i == 0 then n else if i <= n then i - 1 else i].obj == o;
    }
  }

  lemma ListsDetach(ledger: Ledger, b: nat, c: Id, place: Place, recs: seq<Record>)
    requires Lists(ledger, place, recs)
    requires place == InBag(b) ==> Lists(ledger, AtCollector(c), [])
    ensures place == InBag(b) ==> Lists(Detach(ledger, b, c), AtCollector(c), recs)
    ensures place == InBag(b) ==> Lists(Detach(ledger, b, c), InBag(b), [])
    ensures place != InBag(b) && place != AtCollector(c) ==> Lists(Detach(ledger, b, c), place, recs)
  {
    assert forall o :: !Among([], o);
  }

  // ---------------------------------------------------------------------------
  // A thread's step
  // ---------------------------------------------------------------------------

  lemma PinSelf(g: Shared, p: Pinner, a: PinAct)
    requires PinEnabled(g, p, a) && PinnerOk(g, p) && Guards(g, p) && FreedOk(g)
    ensures var (p', g') := Pin(g, p, a);
            && PinnerOk(g', p') && Guards(g', p')
            && g'.epoch == g.epoch && g'.bags == g.bags && g'.freed == g.freed && g'.ledger == g.ledger
            && |g'.slots| == |g.slots| && g.hwm <= g'.hwm < N_SLOTS
            && (SlotOf(p') == SlotOf(p) || SlotOf(p') < 0 || (SlotOf(p) < 0 && g.slots[p'.i] == FREE))
            && (forall i :: 0 <= i < |g.slots| && i != SlotOf(p') ==> g'.slots[i] == g.slots[i])
            && (p'.Pinned? ==> (p.Pinned? && p'.i == p.i && p'.at == p.at) || p'.at == g.epoch)
  {
  }

  lemma PinOther(g: Shared, g': Shared, p: Pinner, slot: int)
    requires PinnerOk(g, p) && Guards(g, p)
    requires g'.epoch == g.epoch && g'.ledger == g.ledger && |g'.slots| == |g.slots| && g.hwm <= g'.hwm < N_SLOTS
    requires forall i :: 0 <= i < |g.slots| && i != slot ==> g'.slots[i] == g.slots[i]
    requires SlotOf(p) >= 0 ==> SlotOf(p) != slot
    ensures PinnerOk(g', p) && Guards(g', p)
  {
  }

  lemma PinKeepsPlaces(s: State, t: Id, a: PinAct, s': State)
    requires Inv(s) && Next(s, PinStep(t, a), s')
    ensures PlaceInv(s')
  {
    PinSelf(s.g, s.pinners[t], a);
    forall c | c in s'.collectors ensures CollectorOk(s'.g, s'.collectors[c]) {
      assert CollectorOk(s.g, s.collectors[c]);
    }
    forall r | r in s'.retirers ensures RetirerOk(s'.g, r, s'.retirers[r]) {
      assert RetirerOk(s.g, r, s.retirers[r]);
    }
    forall o | o in s'.g.ledger ensures Located(s', o) { assert Located(s, o); }
  }

  lemma PinKeepsGuards(s: State, t: Id, a: PinAct, s': State)
    requires Inv(s) && Next(s, PinStep(t, a), s') && s.g.epoch < UNPINNED
    ensures GuardInv(s')
  {
    var (p', g') := Pin(s.g, s.pinners[t], a);
    PinSelf(s.g, s.pinners[t], a);
    forall u | u in s.pinners && u != t
      ensures PinnerOk(g', s.pinners[u]) && Guards(g', s.pinners[u])
      ensures SlotOf(p') >= 0 ==> SlotOf(p') != SlotOf(s.pinners[u])
    {
      assert PinnerOk(s.g, s.pinners[u]);
      PinOther(s.g, g', s.pinners[u], SlotOf(p'));
    }
    forall c | c in s.collectors ensures Ahead(p', s.collectors[c]) {
      assert CollectorOk(s.g, s.collectors[c]) && Ahead(s.pinners[t], s.collectors[c]);
    }
  }

  // ---------------------------------------------------------------------------
  // A retirer's step
  // ---------------------------------------------------------------------------

  // How a step on the records may change the ledger, as far as guards care:
  // new objects are untagged, tags are set to the current epoch, and only
  // objects tagged two epochs ago are freed.
  ghost predicate LedgerStep(g: Shared, g': Shared) {
    && g'.slots == g.slots && g'.hwm == g.hwm && g'.epoch == g.epoch
    && (forall o :: o in g.ledger ==> o in g'.ledger)
    && (forall o :: o in g'.ledger && o !in g.ledger ==> g'.ledger[o].tag == -1 && !g'.ledger[o].place.Freed?)
    && (forall o :: o in g.ledger ==> g'.ledger[o].tag == g.ledger[o].tag || g'.ledger[o].tag == g.epoch)
    && (forall o :: o in g.ledger && g'.ledger[o].place.Freed? && !g.ledger[o].place.Freed? ==>
          0 <= g.ledger[o].tag && g.ledger[o].tag + 2 <= g.epoch)
  }

  lemma GuardOverLedger(g: Shared, g': Shared, p: Pinner)
    requires PinnerOk(g, p) && Guards(g, p) && LedgerStep(g, g')
    ensures PinnerOk(g', p) && Guards(g', p)
  {
  }

  lemma LedgerStepKeepsGuards(s: State, s': State)
    requires GuardInv(s) && LedgerStep(s.g, s'.g) && s'.pinners == s.pinners
    requires forall t, c :: t in s'.pinners && c in s'.collectors ==> Ahead(s'.pinners[t], s'.collectors[c])
    ensures GuardInv(s')
  {
    forall t | t in s'.pinners ensures PinnerOk(s'.g, s'.pinners[t]) && Guards(s'.g, s'.pinners[t]) {
      GuardOverLedger(s.g, s'.g, s.pinners[t]);
    }
  }

  lemma RetireKeepsBags(g: Shared, me: Id, r: Retirer, o: Obj)
    requires RetireEnabled(g, r, o) && RetirerOk(g, me, r) && BagsOk(g)
    ensures BagsOk(Retire(g, me, r, o).1)
  {
    var g' := Retire(g, me, r, o).1;
    forall b | 0 <= b < N_BAGS ensures Lists(g'.ledger, InBag(b), g'.bags[b]) {
      match r
      case Resting => ListsElsewhere(g.ledger, o, g'.ledger[o], InBag(b), g.bags[b]);
      case Unlinked(o') => ListsElsewhere(g.ledger, o', g'.ledger[o'], InBag(b), g.bags[b]);
      case Tagged(o', e) =>
        if b == e % N_BAGS { ListsPush(g.ledger, Record(o', e), InBag(b), g.bags[b]); }
        else { ListsElsewhere(g.ledger, o', g'.ledger[o'], InBag(b), g.bags[b]); }
    }
  }

  lemma RetireSelf(g: Shared, me: Id, r: Retirer, o: Obj)
    requires RetireEnabled(g, r, o) && RetirerOk(g, me, r) && FreedOk(g)
    ensures var (r', g') := Retire(g, me, r, o);
            RetirerOk(g', me, r') && FreedOk(g') && LedgerStep(g, g')
  {
  }

  lemma RetireOther(g: Shared, me: Id, r: Retirer, o: Obj, you: Id, q: Retirer)
    requires RetireEnabled(g, r, o) && RetirerOk(g, me, r) && RetirerOk(g, you, q) && me != you
    ensures RetirerOk(Retire(g, me, r, o).1, you, q)
  {
  }

  lemma RetireCollector(g: Shared, me: Id, r: Retirer, o: Obj, c: Id, q: Collector)
    requires RetireEnabled(g, r, o) && RetirerOk(g, me, r)
    requires CollectorOk(g, q) && Lists(g.ledger, AtCollector(c), Hoard(q))
    ensures CollectorOk(Retire(g, me, r, o).1, q) && Lists(Retire(g, me, r, o).1.ledger, AtCollector(c), Hoard(q))
  {
    var x := if r.Resting? then o else r.o;
    ListsElsewhere(g.ledger, x, Retire(g, me, r, o).1.ledger[x], AtCollector(c), Hoard(q));
  }

  lemma RetireKeepsPlaces(s: State, r: Id, o: Obj, s': State)
    requires PlaceInv(s) && Next(s, RetireStep(r, o), s')
    ensures PlaceInv(s') && LedgerStep(s.g, s'.g)
  {
    hide RetirerOk, CollectorOk, Lists, BagsOk, FreedOk, LedgerStep, Located;
    var q := s.retirers[r];
    assert RetirerOk(s.g, r, q);
    RetireKeepsBags(s.g, r, q, o);
    RetireSelf(s.g, r, q, o);
    forall u | u in s'.retirers ensures RetirerOk(s'.g, u, s'.retirers[u]) {
      if u != r { RetireOther(s.g, r, q, o, u, s.retirers[u]); }
    }
    forall c | c in s'.collectors
      ensures CollectorOk(s'.g, s'.collectors[c]) && Lists(s'.g.ledger, AtCollector(c), Hoard(s'.collectors[c]))
    {
      RetireCollector(s.g, r, q, o, c, s.collectors[c]);
    }
    forall x | x in s'.g.ledger ensures Located(s', x) { RetireLocated(s, r, o, s', x); }
  }

  lemma RetireLocated(s: State, r: Id, o: Obj, s': State, x: Obj)
    requires Next(s, RetireStep(r, o), s') && RetirerOk(s.g, r, s.retirers[r]) && x in s'.g.ledger
    requires x in s.g.ledger ==> Located(s, x)
    ensures Located(s', x)
  {
  }

  // ---------------------------------------------------------------------------
  // A collector's step
  // ---------------------------------------------------------------------------

  // The scan does not miss a guard older than the epoch it started from.
  lemma ScanSees(g: Shared, p: Pinner, me: Id, c: Collector)
    requires PinnerOk(g, p) && CollectorOk(g, c) && CollectEnabled(g, c) && Ahead(p, c) && g.epoch < UNPINNED
    ensures Ahead(p, Collect(g, me, c).0)
  {
  }

  // Advancing leaves the epoch at most one past the publication of any guard.
  lemma AdvanceSafe(g: Shared, p: Pinner, me: Id, c: Collector)
    requires PinnerOk(g, p) && Guards(g, p) && CollectEnabled(g, c) && Ahead(p, c)
    requires c.Dormant? || c.Loaded? || c.Scan? || c.Advance? || c.LoadCur?
    ensures PinnerOk(Collect(g, me, c).1, p) && Guards(Collect(g, me, c).1, p)
  {
  }

  // Freeing takes objects that were tagged at least two epochs ago.
  lemma ReclaimLedger(g: Shared, me: Id, c: Collector)
    requires CollectEnabled(g, c) && CollectorOk(g, c) && Lists(g.ledger, AtCollector(me), Hoard(c))
    requires (c.Swap? || c.Sift? || c.Repush?) && g.epoch < UNPINNED
    ensures LedgerStep(g, Collect(g, me, c).1)
  {
    if Hoard(c) != [] {
      assert Hoard(c)[0].obj in g.ledger && g.ledger[Hoard(c)[0].obj] == Entry(AtCollector(me), Hoard(c)[0].epoch);
    }
  }

  lemma CollectKeepsGuards(s: State, c: Id, s': State)
    requires Inv(s) && Next(s, CollectStep(c), s') && s.g.epoch < UNPINNED
    ensures GuardInv(s')
  {
    var q := s.collectors[c];
    forall t, d | t in s'.pinners && d in s'.collectors ensures Ahead(s'.pinners[t], s'.collectors[d]) {
      if d == c { ScanSees(s.g, s.pinners[t], c, q); }
    }
    if q.Swap? || q.Sift? || q.Repush? {
      ReclaimLedger(s.g, c, q);
      LedgerStepKeepsGuards(s, s');
    } else {
      forall t | t in s'.pinners ensures PinnerOk(s'.g, s'.pinners[t]) && Guards(s'.g, s'.pinners[t]) {
        AdvanceSafe(s.g, s.pinners[t], c, q);
      }
    }
  }

  lemma SiftSelf(g: Shared, me: Id, c: Collector)
    requires c.Sift? && CollectEnabled(g, c) && Lists(g.ledger, AtCollector(me), Hoard(c))
    ensures var (c', g') := Collect(g, me, c);
            Lists(g'.ledger, AtCollector(me), Hoard(c'))
  {
    var Sift(cur, _, todo, keep) := c;
    if todo == [] {
      assert todo + keep == keep;
    } else if Eligible(todo[0], cur) {
      ListsPopFront(g.ledger, AtCollector(me), todo, keep, Entry(Freed, todo[0].epoch));
    } else {
      ListsRotate(g.ledger, AtCollector(me), todo, keep);
    }
  }

  lemma CollectSelf(g: Shared, me: Id, c: Collector)
    requires CollectEnabled(g, c) && CollectorOk(g, c) && Lists(g.ledger, AtCollector(me), Hoard(c)) && BagsOk(g)
    ensures var (c', g') := Collect(g, me, c);
            CollectorOk(g', c') && Lists(g'.ledger, AtCollector(me), Hoard(c'))
  {
    if c.Sift? {
      SiftSelf(g, me, c);
    } else if c.Swap? {
      ListsDetach(g.ledger, c.b, me, InBag(c.b), g.bags[c.b]);
      assert g.bags[c.b] + [] == g.bags[c.b];
    } else if c.Repush? && c.keep != [] {
      ListsPop(g.ledger, AtCollector(me), c.keep, Entry(InBag(c.b), c.keep[0].epoch));
    }
  }

  lemma CollectBags(g: Shared, me: Id, c: Collector)
    requires CollectEnabled(g, c) && CollectorOk(g, c) && Lists(g.ledger, AtCollector(me), Hoard(c)) && BagsOk(g)
    ensures BagsOk(Collect(g, me, c).1)
  {
    var g' := Collect(g, me, c).1;
    forall b | 0 <= b < N_BAGS ensures Lists(g'.ledger, InBag(b), g'.bags[b]) {
      CollectElsewhere(g, me, c, InBag(b), g.bags[b]);
      if c.Swap? && b == c.b { ListsDetach(g.ledger, b, me, InBag(b), g.bags[b]); }
      if c.Repush? && c.keep != [] && b == c.b {
        assert Hoard(c)[0].obj in g.ledger;
        ListsPush(g.ledger, c.keep[0], InBag(b), g.bags[b]);
      }
    }
  }

  // The lists a collector does not touch.
  lemma CollectElsewhere(g: Shared, me: Id, c: Collector, place: Place, recs: seq<Record>)
    requires CollectEnabled(g, c) && Lists(g.ledger, AtCollector(me), Hoard(c)) && Lists(g.ledger, place, recs)
    ensures place != AtCollector(me) && place != Freed
            && !(c.Swap? && place == InBag(c.b)) && !(c.Repush? && c.keep != [] && place == InBag(c.b)) ==>
              Lists(Collect(g, me, c).1.ledger, place, recs)
  {
    if place != AtCollector(me) && place != Freed && !(c.Repush? && place == InBag(c.b)) {
      match c
      case Swap(_, b) => ListsDetach(g.ledger, b, me, place, recs);
      case Sift(cur, _, todo, keep) =>
        if todo != [] {
          assert Hoard(c)[0] == todo[0];
          ListsElsewhere(g.ledger, todo[0].obj, Entry(Freed, todo[0].epoch), place, recs);
        }
      case Repush(_, b, keep) =>
        if keep != [] {
          assert Hoard(c)[0] == keep[0];
          ListsElsewhere(g.ledger, keep[0].obj, Entry(InBag(b), keep[0].epoch), place, recs);
        }
      case _ =>
    }
  }

  lemma CollectFreed(g: Shared, me: Id, c: Collector)
    requires CollectEnabled(g, c) && Lists(g.ledger, AtCollector(me), Hoard(c)) && FreedOk(g)
    ensures FreedOk(Collect(g, me, c).1)
  {
    if Hoard(c) != [] { assert Hoard(c)[0].obj in g.ledger; }
  }

  lemma CollectRetirer(g: Shared, me: Id, c: Collector, r: Id, q: Retirer)
    requires CollectEnabled(g, c) && Lists(g.ledger, AtCollector(me), Hoard(c)) && RetirerOk(g, r, q)
    ensures RetirerOk(Collect(g, me, c).1, r, q)
  {
    if Hoard(c) != [] { assert Hoard(c)[0].obj in g.ledger; }
  }

  lemma CollectLocated(s: State, c: Id, s': State, o: Obj)
    requires PlaceInv(s) && Next(s, CollectStep(c), s') && o in s'.g.ledger
    ensures Located(s', o)
  {
    var q := s.collectors[c];
    CollectKeys(s.g, c, q);
    assert Located(s, o);
  }

  // A collector adds no object, and moves one only to itself, to a bag, or out.
  lemma CollectKeys(g: Shared, me: Id, c: Collector)
    requires CollectEnabled(g, c) && Lists(g.ledger, AtCollector(me), Hoard(c))
    ensures var g' := Collect(g, me, c).1;
            && g'.ledger.Keys == g.ledger.Keys
            && forall o :: o in g.ledger ==>
                 || g'.ledger[o].place == g.ledger[o].place || g'.ledger[o].place.Freed?
                 || g'.ledger[o].place == AtCollector(me)
                 || (g'.ledger[o].place.InBag? && g'.ledger[o].place.b < N_BAGS)
  {
    if Hoard(c) != [] { assert Hoard(c)[0].obj in g.ledger; }
  }

  lemma CollectOthers(g: Shared, me: Id, c: Collector, d: Id, q: Collector)
    requires CollectEnabled(g, c) && Lists(g.ledger, AtCollector(me), Hoard(c)) && d != me
    requires CollectorOk(g, q) && Lists(g.ledger, AtCollector(d), Hoard(q))
    ensures CollectorOk(Collect(g, me, c).1, q) && Lists(Collect(g, me, c).1.ledger, AtCollector(d), Hoard(q))
  {
    CollectElsewhere(g, me, c, AtCollector(d), Hoard(q));
  }

  lemma CollectKeepsPlaces(s: State, c: Id, s': State)
    requires PlaceInv(s) && Next(s, CollectStep(c), s')
    ensures PlaceInv(s')
  {
    hide RetirerOk, CollectorOk, Lists, BagsOk, FreedOk, Located;
    var q := s.collectors[c];
    assert CollectorOk(s.g, q);
    CollectSelf(s.g, c, q);
    CollectBags(s.g, c, q);
    CollectFreed(s.g, c, q);
    forall r | r in s'.retirers ensures RetirerOk(s'.g, r, s'.retirers[r]) {
      CollectRetirer(s.g, c, q, r, s.retirers[r]);
    }
    forall d | d in s'.collectors && d != c
      ensures CollectorOk(s'.g, s'.collectors[d]) && Lists(s'.g.ledger, AtCollector(d), Hoard(s'.collectors[d]))
    {
      CollectOthers(s.g, c, q, d, s.collectors[d]);
    }
    forall o | o in s'.g.ledger ensures Located(s', o) { CollectLocated(s, c, s', o); }
  }

  // ---------------------------------------------------------------------------
  // Every run
  // ---------------------------------------------------------------------------

  lemma StepKeepsInv(s: State, step: Step, s': State)
    requires Inv(s) && Next(s, step, s') && s.g.epoch < UNPINNED
    ensures Inv(s')
  {
    match step
    case PinStep(t, a) => PinKeepsPlaces(s, t, a, s'); PinKeepsGuards(s, t, a, s');
    case RetireStep(r, o) => RetireKeepsPlaces(s, r, o, s'); LedgerStepKeepsGuards(s, s');
    case CollectStep(c) => CollectKeepsPlaces(s, c, s'); CollectKeepsGuards(s, c, s');
  }

  lemma InitInv(s: State)
    requires Init(s)
    ensures Inv(s)
  {
    hide GuardInv, PlaceInv;
    GuardsAtStart(s);
    PlacesAtStart(s);
  }

  lemma GuardsAtStart(s: State)
    requires Init(s)
    ensures GuardInv(s)
  {
  }

  lemma PlacesAtStart(s: State)
    requires Init(s)
    ensures PlaceInv(s)
  {
    assert Lists(map[], InBag(0), []) && Lists(map[], InBag(1), []) && Lists(map[], InBag(2), []);
  }

  lemma {:induction false} EpochRises(run: seq<State>, i: nat, j: nat)
    requires Behavior(run) && i <= j < |run|
    ensures run[i].g.epoch <= run[j].g.epoch
  {
    if i < j {
      EpochRises(run, i, j - 1);
      assert StepAt(run, j - 1);
    }
  }

  // The invariant holds as long as the epoch has not reached the value that
  // stands for "unpinned".
  lemma {:induction false} AlwaysInv(run: seq<State>, i: nat)
    requires Behavior(run) && i < |run| && run[i].g.epoch < UNPINNED
    ensures Inv(run[i])
  {
    if i == 0 {
      InitInv(run[0]);
    } else {
      EpochRises(run, i - 1, i);
      AlwaysInv(run, i - 1);
      assert StepAt(run, i - 1);
      var step :| Next(run[i - 1], step, run[i]);
      StepKeepsInv(run[i - 1], step, run[i]);
    }
  }

  // The guard of `t` is live from `j` to `i`.
  ghost predicate LiveThroughout(run: seq<State>, t: Id, j: nat, i: nat) {
    && j <= i < |run|
    && forall k :: j <= k <= i ==> t in run[k].pinners && run[k].pinners[t].Pinned?
  }

  lemma {:induction false} SameGuard(run: seq<State>, t: Id, j: nat, i: nat)
    requires Behavior(run) && LiveThroughout(run, t, j, i)
    ensures run[i].pinners[t].at == run[j].pinners[t].at && run[i].pinners[t].safe == run[j].pinners[t].safe
  {
    if j < i {
      SameGuard(run, t, j, i - 1);
      assert StepAt(run, i - 1);
    }
  }

  // While a guard is live the epoch rises by at most one.
  lemma EpochLag(run: seq<State>, t: Id, j: nat, i: nat)
    requires Behavior(run) && LiveThroughout(run, t, j, i) && run[i].g.epoch < UNPINNED
    ensures run[j].g.epoch <= run[i].g.epoch <= run[j].g.epoch + 1
  {
    EpochRises(run, j, i);
    AlwaysInv(run, j);
    AlwaysInv(run, i);
    SameGuard(run, t, j, i);
    assert PinnerOk(run[j].g, run[j].pinners[t]) && PinnerOk(run[i].g, run[i].pinners[t]);
  }

  // The grace period: an object that is still linked, or unlinked but not yet
  // tagged by its retirer, at some moment of a guard's life is not freed before
  // the guard is dropped.
  lemma GracePeriod(run: seq<State>, t: Id, j: nat, i: nat, o: Obj)
    requires Behavior(run) && LiveThroughout(run, t, j, i) && run[i].g.epoch < UNPINNED
    requires o !in run[j].g.ledger || run[j].g.ledger[o].tag == -1
    ensures o !in run[i].g.freed
  {
    EpochRises(run, j, i);
    AlwaysInv(run, j);
    AlwaysInv(run, i);
    SameGuard(run, t, j, i);
    assert Guards(run[j].g, run[j].pinners[t]) && Guards(run[i].g, run[i].pinners[t]);
  }

  // No stale read: nothing a guard holds is freed, whether it was read off the
  // structure or off a node already unlinked.  A guard may take any pointer but
  // one whose retirement had loaded its epoch before the slot was published.
  lemma NoUseAfterFree(run: seq<State>, i: nat, t: Id, o: Obj)
    requires Behavior(run) && i < |run| && run[i].g.epoch < UNPINNED
    requires t in run[i].pinners && run[i].pinners[t].Pinned? && o in run[i].pinners[t].held
    ensures o !in run[i].g.freed
  {
    AlwaysInv(run, i);
    assert Guards(run[i].g, run[i].pinners[t]);
  }

  // ---------------------------------------------------------------------------
  // Conservation of garbage
  // ---------------------------------------------------------------------------

  // The object is physically there.
  ghost predicate IsAt(s: State, o: Obj, place: Place) {
    match place
    case AtRetirer(r) => r in s.retirers && !s.retirers[r].Resting? && s.retirers[r].o == o
    case InBag(b) => b < |s.g.bags| && Among(s.g.bags[b], o)
    case AtCollector(c) => c in s.collectors && Among(Hoard(s.collectors[c]), o)
    case Freed => o in s.g.freed
  }

  lemma PlaceRecorded(s: State, o: Obj, place: Place)
    requires Inv(s) && IsAt(s, o, place)
    ensures o in s.g.ledger && s.g.ledger[o].place == place
  {
    match place
    case AtRetirer(r) => assert RetirerOk(s.g, r, s.retirers[r]);
    case InBag(b) => assert Lists(s.g.ledger, InBag(b), s.g.bags[b]);
    case AtCollector(c) => assert Lists(s.g.ledger, AtCollector(c), Hoard(s.collectors[c]));
    case Freed =>
  }

  // Every object unlinked so far is in exactly one place, once: with its
  // retirer, in a bag, with a collector, or freed.  No other object is anywhere.
  lemma GarbageConserved(run: seq<State>, i: nat, o: Obj)
    requires Behavior(run) && i < |run| && run[i].g.epoch < UNPINNED
    ensures o in run[i].g.ledger <==> exists place :: IsAt(run[i], o, place)
    ensures forall p, q :: IsAt(run[i], o, p) && IsAt(run[i], o, q) ==> p == q
    ensures forall j, k :: 0 <= j < k < |run[i].g.freed| ==> run[i].g.freed[j] != run[i].g.freed[k]
    ensures forall b :: 0 <= b < N_BAGS ==> b < |run[i].g.bags| && NoRepeats(run[i].g.bags[b])
    ensures forall c :: c in run[i].collectors ==> NoRepeats(Hoard(run[i].collectors[c]))
  {
    AlwaysInv(run, i);
    var s := run[i];
    if o in s.g.ledger {
      assert Located(s, o);
      assert IsAt(s, o, s.g.ledger[o].place) by {
        match s.g.ledger[o].place
        case AtRetirer(r) => assert RetirerOk(s.g, r, s.retirers[r]);
        case InBag(b) => assert Lists(s.g.ledger, InBag(b), s.g.bags[b]);
        case AtCollector(c) => assert Lists(s.g.ledger, AtCollector(c), Hoard(s.collectors[c]));
        case Freed =>
      }
    }
    forall place | IsAt(s, o, place) ensures o in s.g.ledger && s.g.ledger[o].place == place {
      PlaceRecorded(s, o, place);
    }
  }

  predicate NoRepeats(recs: seq<Record>) {
    forall i, j :: 0 <= i < j < |recs| ==> recs[i].obj != recs[j].obj
  }
}
