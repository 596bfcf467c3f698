/** The bump arena: any number of threads reserve aligned regions by moving one
  * cursor with compare-and-swap.
  *
  * The log of reservations is a history variable.  Addresses are words; the
  * arena and the rounding stay inside the address range (`Fits`).
  */
module Arena {
  import opened Common
  import opened Keys
  import opened Bits

  // ---------------------------------------------------------------------------
  // One attempt
  // ---------------------------------------------------------------------------

  predicate Fits(base: nat, cap: nat, align: nat) { IsPow2(align) && base + cap + align <= WORD }

  // `(start + align - 1) & !(align - 1)`
  function RoundUp(start: nat, align: nat): nat
    requires 0 < align <= WORD
  {
    And(start + align - 1, WORD - 1 - (align - 1))
  }

  datatype Attempt = Attempt(aligned: nat, pad: int, newHead: int)

  function Try(base: nat, cur: nat, size: nat, align: nat): Attempt
    requires 0 < align <= WORD
  {
    var start := base + cur;
    var aligned := RoundUp(start, align);
    Attempt(aligned, aligned - start, cur + (aligned - start) + size)
  }

  // `checked_add` twice, then the bound.
  predicate Refused(a: Attempt, cur: nat, cap: nat) {
    cur + a.pad >= WORD || a.newHead >= WORD || a.newHead > cap
  }

  // The rounded address is the first aligned one from the cursor on.
  lemma TryMeans(base: nat, cap: nat, cur: nat, size: nat, align: nat)
    requires Fits(base, cap, align) && cur <= cap
    ensures
      var a := Try(base, cur, size, align);
      && 0 <= a.pad < align && a.aligned == base + cur + a.pad && a.aligned % align == 0
      && a.newHead == cur + a.pad + size
      && (Refused(a, cur, cap) <==> cur + a.pad + size > cap)
  {
    hide And, IsPow2;
    WordIsPow2();
    Pow2Positive(align);
    var x := base + cur + align - 1;
    MaskRoundsDown(x, align, WORD);
    RoundedDown(x, align);
  }

  lemma RoundedDown(x: nat, n: nat)
    requires n > 0
    ensures x - x % n >= 0 && (x - x % n) % n == 0
  {
    var d, m := x / n, x % n;
    assert x == n * d + m;
    ModUnique(n * d, n, d, 0);
  }

  // ---------------------------------------------------------------------------
  // The protocol
  // ---------------------------------------------------------------------------

  // A reservation: bytes [offset, offset + size) of the arena, after `pad` bytes of padding.
  datatype Region = Region(offset: nat, size: nat, align: nat, pad: nat)

  datatype Thread =
    | Asking(size: nat, align: nat)
    | Loaded(size: nat, align: nat, cur: nat)
    | Granted(size: nat, align: nat, address: nat, region: Option<nat>)   // which reservation, none for size 0
    | Exhausted(size: nat, align: nat)

  datatype State = State(base: nat, cap: nat, head: nat, threads: map<nat, Thread>, log: seq<Region>)

  datatype Step = Ask(t: nat, size: nat, align: nat) | Run(t: nat, spurious: bool)

  // `spurious`: the weak compare-and-swap may fail although the cursor is unchanged.
  function RunStep(s: State, t: nat, spurious: bool): State
    requires t in s.threads && (s.threads[t].Loaded? ==> 0 < s.threads[t].align <= WORD)
  {
    match s.threads[t]
    case Asking(size, align) =>
      var next := if size == 0 then Granted(size, align, s.base, None) else Loaded(size, align, s.head);
      s.(threads := s.threads[t := next])
    case Loaded(size, align, cur) =>
      var a := Try(s.base, cur, size, align);
      if Refused(a, cur, s.cap) || a.pad < 0 || a.newHead < 0 then s.(threads := s.threads[t := Exhausted(size, align)])
      else if s.head == cur && !spurious then
        s.(head := a.newHead, log := s.log + [Region(cur + a.pad, size, align, a.pad)],
           threads := s.threads[t := Granted(size, align, a.aligned, Some(|s.log|))])
      else s.(threads := s.threads[t := Loaded(size, align, s.head)])
    case Granted(_, _, _, _) => s
    case Exhausted(_, _) => s
  }

  predicate Next(s: State, step: Step, s': State) {
    match step
    case Ask(t, size, align) =>
      && Fits(s.base, s.cap, align) && (t in s.threads ==> !s.threads[t].Asking? && !s.threads[t].Loaded?)
      && s' == s.(threads := s.threads[t := Asking(size, align)])
    case Run(t, spurious) =>
      && t in s.threads && (s.threads[t].Loaded? ==> 0 < s.threads[t].align <= WORD) && s' == RunStep(s, t, spurious)
  }

  predicate Init(s: State) { s.base + s.cap < WORD && s.head == 0 && s.threads == map[] && s.log == [] }

  // ---------------------------------------------------------------------------
  // Invariant
  // ---------------------------------------------------------------------------

  function Used(log: seq<Region>): nat {
    if log == [] then 0 else Used(log[..|log| - 1]) + log[|log| - 1].pad + log[|log| - 1].size
  }

  predicate RegionOk(s: State, k: nat)
    requires k < |s.log|
  {
    var r := s.log[k];
    && r.size > 0 && r.align > 0 && (s.base + r.offset) % r.align == 0 && r.pad < r.align
    && r.offset == Used(s.log[..k]) + r.pad && r.offset + r.size <= Used(s.log[..k + 1])
  }

  predicate ThreadOk(s: State, t: nat)
    requires t in s.threads
  {
    match s.threads[t]
    case Asking(_, align) => Fits(s.base, s.cap, align)
    case Loaded(size, align, cur) => size > 0 && Fits(s.base, s.cap, align) && cur <= s.head
    case Granted(size, align, address, k) =>
      if k.None? then size == 0 && address == s.base
      else
        && k.value < |s.log| && address == s.base + s.log[k.value].offset
        && s.log[k.value].size == size && s.log[k.value].align == align
    case Exhausted(size, align) => true
  }

  // Two threads never hold the same reservation.
  predicate GrantsApart(s: State, t: nat, u: nat)
    requires t in s.threads && u in s.threads
  {
    t != u && s.threads[t].Granted? && s.threads[u].Granted? && s.threads[t].region.Some? ==>
      s.threads[t].region != s.threads[u].region
  }

  ghost predicate Inv(s: State) {
    && s.head == Used(s.log) <= s.cap
    && (forall k {:trigger RegionOk(s, k)} :: 0 <= k < |s.log| ==> RegionOk(s, k))
    && (forall t {:trigger ThreadOk(s, t)} :: t in s.threads ==> ThreadOk(s, t))
    && (forall t, u {:trigger GrantsApart(s, t, u)} :: t in s.threads && u in s.threads ==> GrantsApart(s, t, u))
  }

  lemma {:induction false} UsedRises(log: seq<Region>, a: nat, b: nat)
    requires a <= b <= |log|
    ensures Used(log[..a]) <= Used(log[..b])
    decreases b
  {
    if a < b {
      UsedRises(log, a, b - 1);
      assert log[..b][..b - 1] == log[..b - 1];
    }
  }

  // The step grants a reservation.
  ghost predicate Grants(s: State, t: nat, s': State) {
    && t in s.threads && s.threads[t].Loaded?
    && var th := s.threads[t];
    && s'.base == s.base && s'.cap == s.cap && |s'.log| == |s.log| + 1 && s'.log[..|s.log|] == s.log
    && var r := s'.log[|s.log|];
    && s'.threads == s.threads[t := Granted(th.size, th.align, s.base + r.offset, Some(|s.log|))]
    && r == Region(s.head + r.pad, th.size, th.align, r.pad) && r.size > 0 && r.align > 0 && r.pad < r.align
    && (s.base + r.offset) % r.align == 0 && s'.head == r.offset + r.size <= s.cap
  }

  lemma GrantIs(s: State, t: nat)
    requires Inv(s) && t in s.threads && s.threads[t].Loaded? && s.threads[t].cur == s.head
    requires Fits(s.base, s.cap, s.threads[t].align) && 0 < s.threads[t].align <= WORD
    requires var th := s.threads[t]; !Refused(Try(s.base, th.cur, th.size, th.align), th.cur, s.cap)
    ensures Grants(s, t, RunStep(s, t, false))
  {
    hide And, IsPow2, Try, Used;
    var th := s.threads[t];
    assert ThreadOk(s, t);
    TryMeans(s.base, s.cap, th.cur, th.size, th.align);
  }

  lemma GrantKeeps(s: State, t: nat, s': State)
    requires Inv(s) && Grants(s, t, s')
    ensures Inv(s')
  {
    hide And, IsPow2;
    assert s'.log[..|s'.log|] == s'.log;
    forall k | 0 <= k < |s'.log|
      ensures RegionOk(s', k)
    {
      if k < |s.log| {
        assert RegionOk(s, k);
        assert s'.log[..k] == s.log[..k] && s'.log[..k + 1] == s.log[..k + 1];
      }
    }
    forall x | x in s'.threads
      ensures ThreadOk(s', x)
    {
      if x != t { assert ThreadOk(s, x); }
    }
    forall x, y | x in s'.threads && y in s'.threads
      ensures GrantsApart(s', x, y)
    {
      if x != t { assert ThreadOk(s, x); }
      if y != t { assert ThreadOk(s, y); }
      if x != t && y != t { assert GrantsApart(s, x, y); }
    }
  }

  lemma StepKeepsInv(s: State, step: Step, s': State)
    requires Inv(s) && Next(s, step, s')
    ensures Inv(s') && s'.base == s.base && s'.cap == s.cap
  {
    hide And, IsPow2, Try, Refused, Used;
    var t := step.t;
    assert t in s.threads ==> ThreadOk(s, t);
    if step.Run? && s.threads[t].Loaded? && s'.log != s.log {
      assert s' == RunStep(s, t, false);
      GrantIs(s, t);
      GrantKeeps(s, t, s');
    } else {
      forall k | 0 <= k < |s'.log| ensures RegionOk(s', k) { assert RegionOk(s, k); }
      forall x | x in s'.threads ensures ThreadOk(s', x) { if x != t { assert ThreadOk(s, x); } }
      forall x, y | x in s'.threads && y in s'.threads ensures GrantsApart(s', x, y) {
        if x in s.threads && y in s.threads { assert GrantsApart(s, x, y); }
      }
    }
  }

  // ---------------------------------------------------------------------------
  // Runs
  // ---------------------------------------------------------------------------

  predicate StepAt(states: seq<State>, steps: seq<Step>, k: nat) {
    k < |steps| && k + 1 < |states| && Next(states[k], steps[k], states[k + 1])
  }

  predicate Execution(states: seq<State>, steps: seq<Step>) {
    && |states| == |steps| + 1 && Init(states[0])
    && forall k {:trigger StepAt(states, steps, k)} :: 0 <= k < |steps| ==> StepAt(states, steps, k)
  }

  lemma {:induction false} AlwaysInv(states: seq<State>, steps: seq<Step>, k: nat)
    requires Execution(states, steps) && k < |states|
    ensures Inv(states[k]) && states[k].base == states[0].base && states[k].cap == states[0].cap
  {
    hide Next;
    if k > 0 {
      hide Inv;
      AlwaysInv(states, steps, k - 1);
      assert StepAt(states, steps, k - 1);
      StepKeepsInv(states[k - 1], steps[k - 1], states[k]);
    }
  }

  // The cursor is the sum of all sizes and paddings, and never passes the end.
  lemma CursorIsSum(states: seq<State>, steps: seq<Step>, k: nat)
    requires Execution(states, steps) && k < |states|
    ensures states[k].head == Used(states[k].log) <= states[k].cap
  {
    AlwaysInv(states, steps, k);
  }

  // Every reservation is aligned and inside the arena, behind the cursor.
  lemma RegionIsSafe(states: seq<State>, steps: seq<Step>, k: nat, a: nat)
    requires Execution(states, steps) && k < |states| && a < |states[k].log|
    ensures
      var s := states[k];
      && s.log[a].size > 0 && s.log[a].align > 0 && (s.base + s.log[a].offset) % s.log[a].align == 0
      && s.log[a].offset + s.log[a].size <= s.head <= s.cap
  {
    hide Next, Used;
    AlwaysInv(states, steps, k);
    var s := states[k];
    assert RegionOk(s, a);
    UsedRises(s.log, a + 1, |s.log|);
    assert s.log[..|s.log|] == s.log;
  }

  // Any two reservations are disjoint.
  lemma RegionsAreDisjoint(states: seq<State>, steps: seq<Step>, k: nat, a: nat, b: nat)
    requires Execution(states, steps) && k < |states| && a < b < |states[k].log|
    ensures states[k].log[a].offset + states[k].log[a].size <= states[k].log[b].offset
  {
    hide Next, Used;
    AlwaysInv(states, steps, k);
    var s := states[k];
    assert RegionOk(s, a) && RegionOk(s, b);
    UsedRises(s.log, a + 1, b);
  }

  // A granted address is that of a reservation of the size and alignment asked
  // for, inside the arena, and no two threads are granted the same one.
  lemma GrantIsReservation(states: seq<State>, steps: seq<Step>, k: nat, t: nat, u: nat)
    requires Execution(states, steps) && k < |states| && t in states[k].threads && states[k].threads[t].Granted?
    requires u in states[k].threads && states[k].threads[u].Granted?
    ensures
      var s, g := states[k], states[k].threads[t];
      if g.region.None? then g.size == 0 && g.address == s.base
      else
        && g.region.value < |s.log| && g.address == s.base + s.log[g.region.value].offset
        && s.log[g.region.value].size == g.size && s.log[g.region.value].align == g.align
        && g.align > 0 && g.address % g.align == 0 && g.address + g.size <= s.base + s.cap
        && (u != t ==> s.threads[u].region != g.region)
  {
    hide Next, Used;
    AlwaysInv(states, steps, k);
    var s, g := states[k], states[k].threads[t];
    assert ThreadOk(s, t) && GrantsApart(s, t, u);
    if g.region.Some? { RegionIsSafe(states, steps, k, g.region.value); }
  }

  // So the bytes granted to different threads never overlap.
  lemma GrantsAreDisjoint(states: seq<State>, steps: seq<Step>, k: nat, t: nat, u: nat)
    requires Execution(states, steps) && k < |states| && t != u
    requires t in states[k].threads && states[k].threads[t].Granted? && states[k].threads[t].size > 0
    requires u in states[k].threads && states[k].threads[u].Granted? && states[k].threads[u].size > 0
    ensures
      var g, h := states[k].threads[t], states[k].threads[u];
      g.address + g.size <= h.address || h.address + h.size <= g.address
  {
    GrantIsReservation(states, steps, k, t, u);
    GrantIsReservation(states, steps, k, u, t);
    var i, j := states[k].threads[t].region.value, states[k].threads[u].region.value;
    if i < j { RegionsAreDisjoint(states, steps, k, i, j); } else { RegionsAreDisjoint(states, steps, k, j, i); }
  }

  // Each compare-and-swap that succeeds adds one reservation, of the size and
  // alignment asked for, and grants exactly that; every other step, a refusal in
  // particular, leaves the arena alone.  An attempt is refused exactly when
  // padding and size do not fit behind the cursor it loaded, and fails otherwise
  // only if the cursor has moved or the compare-and-swap is spurious.
  lemma OnlyGrantsMove(s: State, t: nat, spurious: bool)
    requires Inv(s) && t in s.threads && s.threads[t].Loaded? && 0 < s.threads[t].align <= WORD
    ensures
      var s', th := RunStep(s, t, spurious), s.threads[t];
      var pad := Try(s.base, th.cur, th.size, th.align).pad;
      && (s'.threads[t].Exhausted? <==> th.cur + pad + th.size > s.cap)
      && (s'.threads[t].Granted? ==>
            && |s'.log| == |s.log| + 1 && s'.log[..|s.log|] == s.log
            && s'.log[|s.log|].size == th.size && s'.log[|s.log|].align == th.align
            && s'.threads[t].region == Some(|s.log|))
      && (!s'.threads[t].Granted? ==> s'.log == s.log && s'.head == s.head)
      && (s'.threads[t].Granted? <==> th.cur + pad + th.size <= s.cap && s.head == th.cur && !spurious)
      && (!s'.threads[t].Granted? && !s'.threads[t].Exhausted? ==> s'.threads[t] == th.(cur := s.head))
  {
    hide And, IsPow2, Try, Used;
    assert ThreadOk(s, t);
    var th := s.threads[t];
    TryMeans(s.base, s.cap, th.cur, th.size, th.align);
  }

  // ---------------------------------------------------------------------------
  // What was asked for
  // ---------------------------------------------------------------------------

  // The size and alignment thread `t` asked for last.
  function LastAsk(steps: seq<Step>, t: nat): Option<(nat, nat)> {
    if steps == [] then None
    else
      var step := steps[|steps| - 1];
      if step.Ask? && step.t == t then Some((step.size, step.align)) else LastAsk(steps[..|steps| - 1], t)
  }

  lemma AskStays(s: State, step: Step, s': State, t: nat)
    requires Next(s, step, s')
    ensures step.Ask? && step.t == t ==> t in s'.threads && s'.threads[t] == Asking(step.size, step.align)
    ensures !(step.Ask? && step.t == t) ==>
      && (t in s'.threads <==> t in s.threads)
      && (t in s.threads ==> s'.threads[t].size == s.threads[t].size && s'.threads[t].align == s.threads[t].align)
  {
    hide Fits, Try, Refused;
  }

  // So a thread is served for what it asked.
  lemma {:induction false} ServedAsAsked(states: seq<State>, steps: seq<Step>, k: nat, t: nat)
    requires Execution(states, steps) && k < |states|
    ensures t in states[k].threads <==> LastAsk(steps[..k], t).Some?
    ensures t in states[k].threads ==>
      LastAsk(steps[..k], t) == Some((states[k].threads[t].size, states[k].threads[t].align))
  {
    hide Next;
    if k > 0 {
      ServedAsAsked(states, steps, k - 1, t);
      assert StepAt(states, steps, k - 1);
      assert steps[..k][..k - 1] == steps[..k - 1];
      AskStays(states[k - 1], steps[k - 1], states[k], t);
    }
  }

  // ---------------------------------------------------------------------------
  // Lock freedom
  // ---------------------------------------------------------------------------

  lemma {:induction false} LogGrows(states: seq<State>, steps: seq<Step>, a: nat, k: nat)
    requires Execution(states, steps) && a <= k < |states|
    ensures states[a].log <= states[k].log
    decreases k
  {
    hide Next, Init;
    if a < k {
      LogGrows(states, steps, a, k - 1);
      assert StepAt(states, steps, k - 1);
      LogStep(states[k - 1], steps[k - 1], states[k]);
    }
  }

  lemma LogStep(s: State, step: Step, s': State)
    requires Next(s, step, s')
    ensures s.log <= s'.log
  {
    hide Fits, Try, Refused;
  }

  predicate Moves(step: Step, t: nat) { step.t == t }

  // Thread `t` takes no step from `a` to before `k`.
  predicate Rests(steps: seq<Step>, a: nat, k: nat, t: nat) {
    k <= |steps| && forall j :: a <= j < k ==> !Moves(steps[j], t)
  }

  lemma {:induction false} StaysPut(states: seq<State>, steps: seq<Step>, a: nat, k: nat, t: nat)
    requires Execution(states, steps) && a <= k < |states| && Rests(steps, a, k, t) && t in states[a].threads
    ensures t in states[k].threads && states[k].threads[t] == states[a].threads[t]
    decreases k
  {
    hide Init, Try, Refused;
    if a < k {
      StaysPut(states, steps, a, k - 1, t);
      assert StepAt(states, steps, k - 1);
      assert !Moves(steps[k - 1], t);
    }
  }

  // An attempt is repeated only because another thread has been granted memory since
  // the cursor was loaded, unless the compare-and-swap failed spuriously.
  lemma RetryMeansGrant(states: seq<State>, steps: seq<Step>, a: nat, k: nat, t: nat)
    requires Execution(states, steps) && a < k < |steps| && steps[a].Run? && steps[a].t == t
    requires steps[k] == Run(t, false) && Rests(steps, a + 1, k, t)
    requires t in states[a + 1].threads && states[a + 1].threads[t].Loaded?
    requires t in states[k + 1].threads && states[k + 1].threads[t].Loaded?
    ensures |states[a].log| < |states[k].log|
  {
    hide Init, Inv, Try, Refused, RunStep;
    assert StepAt(states, steps, a) && StepAt(states, steps, k);
    StaysPut(states, steps, a + 1, k, t);
    LogGrows(states, steps, a, k);
    CursorIsSum(states, steps, a);
    CursorIsSum(states, steps, k);
    AlwaysInv(states, steps, k);
    LoadsCursor(states[a], t, steps[a].spurious);
    OnlyGrantsMove(states[k], t, false);
    SameLength(states[a].log, states[k].log);
  }

  lemma SameLength(a: seq<Region>, b: seq<Region>)
    requires a <= b
    ensures |a| < |b| || a == b
  {
  }

  lemma LoadsCursor(s: State, t: nat, spurious: bool)
    requires t in s.threads && (s.threads[t].Loaded? ==> 0 < s.threads[t].align <= WORD)
    ensures var s' := RunStep(s, t, spurious); s'.threads[t].Loaded? ==> s'.threads[t].cur == s.head
  {
    hide Try, Refused;
  }

  // Undisturbed, a request is answered at the second step: refused exactly if it does not
  // fit behind the cursor.
  lemma AloneAnswered(s: State, t: nat)
    requires Inv(s) && t in s.threads && s.threads[t].Asking?
    ensures
      var s1, th := RunStep(s, t, false), s.threads[t];
      if th.size == 0 then s1.threads[t] == Granted(0, th.align, s.base, None) && s1.log == s.log
      else
        && s1.threads[t].Loaded? && 0 < s1.threads[t].align <= WORD
        && var s2 := RunStep(s1, t, false);
           if s.head + Try(s.base, s.head, th.size, th.align).pad + th.size > s.cap
           then s2.threads[t].Exhausted? && s2.log == s.log
           else s2.threads[t].Granted? && |s2.log| == |s.log| + 1
  {
    hide Inv, IsPow2, And, Try, Refused, Used;
    var th, s1 := s.threads[t], RunStep(s, t, false);
    AskedFits(s, t);
    if th.size > 0 {
      assert Next(s, Run(t, false), s1);
      StepKeepsInv(s, Run(t, false), s1);
      OnlyGrantsMove(s1, t, false);
    }
  }

  lemma AskedFits(s: State, t: nat)
    requires Inv(s) && t in s.threads && s.threads[t].Asking?
    ensures 0 < s.threads[t].align <= WORD
  {
    hide IsPow2, Used;
    assert ThreadOk(s, t);
    Pow2Positive(s.threads[t].align);
  }

  // ---------------------------------------------------------------------------
  // The arena as an object
  // ---------------------------------------------------------------------------

  class Arena {
    const base: nat
    const mem: array<Byte>
    var head: nat

    ghost predicate Valid()
      reads this
    {
      head <= mem.Length && base + mem.Length < WORD
    }

    constructor (address: nat, cap: nat)
      requires cap > 0 && address + cap < WORD
      ensures Valid() && fresh(mem) && mem.Length == cap && head == 0 && base == address
    {
      base, head := address, 0;
      mem := new Byte[cap](_ => 0);
    }

    // With nobody else at the cursor the first attempt succeeds.
    method AllocRaw(size: nat, align: nat) returns (r: Option<nat>)
      requires Valid() && Fits(base, mem.Length, align)
      modifies this`head
      ensures Valid()
      ensures size == 0 ==> r == Some(base) && head == old(head)
      ensures size > 0 && r.Some? ==>
        && r.value % align == 0 && base + old(head) <= r.value < base + old(head) + align
        && head == r.value - base + size
      ensures size > 0 && r.None? ==>
        && head == old(head)
        && forall a :: base + old(head) <= a && a % align == 0 ==> a + size > base + mem.Length
    {
      hide And, IsPow2, Try;
      if size == 0 { return Some(base); }
      TryMeans(base, mem.Length, head, size, align);
      var a := Try(base, head, size, align);
      if Refused(a, head, mem.Length) {
        forall x: nat | base + head <= x && x % align == 0
          ensures x + size > base + mem.Length
        {
          NoneBetween(base + head, a.aligned, x, align);
        }
        return None;
      }
      head := a.newHead;
      return Some(a.aligned);
    }

    // The bytes go to fresh memory; nothing allocated before is touched.
    method PushBytes(bytes: seq<Byte>) returns (r: Option<nat>)
      requires Valid()
      modifies this`head, mem
      ensures Valid() && r.Some? == (bytes == [] || old(head) + |bytes| <= mem.Length)
      ensures r.None? ==> head == old(head) && mem[..] == old(mem[..])
      ensures r.Some? ==> head == old(head) + |bytes| && mem[old(head)..head] == bytes
      ensures r.Some? && bytes != [] ==> r.value == base + old(head)
      ensures forall x :: 0 <= x < mem.Length && !(old(head) <= x < head) ==> mem[x] == old(mem[x])
    {
      hide And, Try;
      r := AllocRaw(|bytes|, 1);
      if r.None? {
        assert (base + head) % 1 == 0;
        return;
      }
      if bytes != [] {
        var off := r.value - base;
        for i := 0 to |bytes|
          modifies mem
          invariant mem[off..off + i] == bytes[..i]
          invariant forall x :: 0 <= x < mem.Length && !(off <= x < off + i) ==> mem[x] == old(mem[x])
        {
          mem[off + i] := bytes[i];
        }
      }
    }
  }

  lemma NoneBetween(start: nat, aligned: nat, x: nat, n: nat)
    requires n > 0 && aligned % n == 0 && start <= aligned < start + n && start <= x && x % n == 0
    ensures aligned <= x
  {
    if x < aligned { ModApart(x, aligned, n); }
  }
}
