/** The bottom level of the lock-free skiplist under concurrency.
  *
  * Every load, compare-and-swap and mark on a level 0 link is one atomic step,
  * interleaved arbitrarily among any number of threads.  A key is represented
  * by its rank (see module Keys: comparing ranks is comparing byte strings).
  *
  * A search comes down from the upper levels and may enter level 0 at any node
  * with a smaller key, dead ones included: `insert` stores into an upper link
  * without looking at its mark, so upper levels can lead to removed nodes (module
  * Tower has those levels and shows the consequence).
  *
  * History variables that no step reads to decide what to do: `linked`, the set of
  * nodes on the bottom chain; when a value was written and when its node was
  * marked; which retired nodes were searched for from a dead start; and, in a
  * thread, when its operation began and took effect, which nodes have been on
  * the chain and whether its key has been present and absent since, and whether
  * its last search started at a node that has not been on the chain since.
  */
module BottomList {
  import opened Common

  type Ptr = nat
  type Tid = nat
  type Value = nat

  const NULL: Ptr := 0
  const HEAD: Ptr := 1
  const TAIL: Ptr := 2

  // The ranks of the two sentinel keys; ranks of real keys lie strictly between.
  const NEG_INF: real := -1.0
  const POS_INF: real := 2.0

  datatype Node = Node(key: real, next: Ptr, marked: bool)

  type Heap = map<Ptr, Node>

  // A node's value, the time of its last write, and the time of the bottom mark, or -1.
  datatype Cell = Cell(value: Value, wrote: nat, died: int)

  type Cells = map<Ptr, Cell>

  // What a search is for.  `Unlink` is the second search of a winning remove,
  // `Help` the search an insert repeats while it links its upper levels.
  datatype Goal = Insert | Remove | Get | Unlink(victim: Ptr) | Help

  datatype Pc =
    | Idle
    | Route(goal: Goal, start: Ptr)
    | Load(goal: Goal, pred: Ptr, curr: Ptr)
    | Splice(goal: Goal, pred: Ptr, curr: Ptr, succ: Ptr)
    | Publish(pred: Ptr, succ: Ptr)
    | CountAdd
    | Update(node: Ptr)
    | ReadMark(node: Ptr)
    | LoadValue(node: Ptr)
    | LoadSucc(node: Ptr)
    | Mark(node: Ptr, succ: Ptr)
    | Recheck(node: Ptr)
    | CountSub(node: Ptr)
    | Retire(node: Ptr)
    | Returned(goal: Goal, ok: bool)

  datatype Thread = Thread(
    key: real, val: Value, pc: Pc,
    got: Value,          // what a get has read
    begin: nat,          // when the operation began
    point: int,          // when its own publish, mark or swap happened, or -1
    stale: bool,         // the search entered at a node not on the chain since it began
    reached: set<Ptr>,   // nodes that were on the chain since the search began
    seenIn: bool,        // the key was present at some time since `begin`
    seenOut: bool)       // the key was absent at some time since `begin`

  // What the threads share: the list, the values, the nodes handed to
  // reclamation (those after a search from a dead start in `rushed`), `len`.
  datatype Shared = Shared(
    nodes: Heap, linked: set<Ptr>, cells: Cells, retired: seq<Ptr>, rushed: set<Ptr>, len: nat, clock: nat)

  datatype State = State(g: Shared, threads: map<Tid, Thread>)

  // ---------------------------------------------------------------------------
  // The abstract set of keys
  // ---------------------------------------------------------------------------

  predicate Holds(nodes: Heap, p: Ptr, k: real) {
    p in nodes && p != HEAD && p != TAIL && !nodes[p].marked && nodes[p].key == k
  }

  ghost predicate Present(nodes: Heap, k: real) {
    exists p :: Holds(nodes, p, k)
  }

  ghost function Keys(nodes: Heap): (r: set<real>)
    ensures forall k :: k in r <==> Present(nodes, k)
  {
    var r := set p | p in nodes && Holds(nodes, p, nodes[p].key) :: nodes[p].key;
    assert forall k :: Present(nodes, k) ==> k in r by {
      forall k | Present(nodes, k) ensures k in r {
        var p :| Holds(nodes, p, k);
        assert Holds(nodes, p, nodes[p].key);
      }
    }
    r
  }

  // ---------------------------------------------------------------------------
  // Steps
  // ---------------------------------------------------------------------------

  datatype Action =
    | Begin(goal: Goal, key: real, val: Value)
    | Reroute(p: Ptr)     // the upper levels moved the start to `p`
    | Enter
    | Elsewhere           // a step on an upper level
    | Assist              // search again, to link an upper level
    | Go(memory: Ptr)     // the step the program counter determines

  // The history variables of a thread take in the state just reached.
  ghost function Look(th: Thread, nodes: Heap, linked: set<Ptr>): Thread {
    th.(reached := th.reached + linked,
        seenIn := th.seenIn || Present(nodes, th.key),
        seenOut := th.seenOut || !Present(nodes, th.key))
  }

  predicate Active(th: Thread) {
    !th.pc.Idle? && !th.pc.Returned?
  }

  ghost function Observe(th: Thread, nodes: Heap, linked: set<Ptr>): Thread {
    if Active(th) then Look(th, nodes, linked) else th
  }

  // `compare_exchange` on a level 0 link, as a condition on its current value.
  predicate CasOk(nodes: Heap, p: Ptr, expected: Ptr) {
    p in nodes && nodes[p].next == expected && !nodes[p].marked
  }

  // `fetch_add` and `fetch_sub` on the counter.
  function Counted(len: nat, step: int): nat { (len + step) % WORD }

  // Where the search goes after it has read the link of `curr`.
  function AfterLoad(th: Thread, node: Node): Pc
    requires th.pc.Load?
  {
    var Load(goal, pred, curr) := th.pc;
    if node.marked then
      if goal.Get? then Load(goal, pred, node.next) else Splice(goal, pred, curr, node.next)
    else if node.key < th.key then Load(goal, curr, node.next)
    else match goal
      case Insert => if node.key == th.key then Update(curr) else Publish(pred, curr)
      case Remove => if node.key == th.key then LoadSucc(curr) else Returned(Remove, false)
      case Get => if node.key == th.key then ReadMark(curr) else Returned(Get, false)
      case Unlink(v) => CountSub(v)
      case Help => CountAdd
  }

  // May the thread take this step now?
  predicate Enabled(g: Shared, th: Thread, a: Action) {
    match a
    case Begin(goal, key, _) => !Active(th) && !goal.Unlink? && !goal.Help? && NEG_INF < key < POS_INF
    case Reroute(p) => th.pc.Route? && p in g.nodes && g.nodes[p].key < th.key
    case Enter => th.pc.Route? && th.pc.start in g.nodes
    case Elsewhere => Active(th)
    case Assist => th.pc.CountAdd?
    case Go(n) =>
      match th.pc
      case Load(_, _, curr) => curr in g.nodes
      case Publish(_, _) => n !in g.nodes && n != NULL
      case Update(node) => node in g.cells
      case ReadMark(node) => node in g.nodes
      case LoadValue(node) => node in g.cells
      case LoadSucc(node) => node in g.nodes
      case Mark(node, _) => node in g.cells
      case Recheck(node) => node in g.nodes
      case pc => Active(th) && !pc.Route?
  }

  // The thread's registers and the shared list after the step.
  function Outcome(g: Shared, th: Thread, a: Action): (Thread, Shared)
    requires Enabled(g, th, a)
  {
    match a
    case Begin(goal, key, val) =>
      (Thread(key, val, Route(goal, HEAD), 0, g.clock + 1, -1, false, g.linked, false, false), g)
    case Reroute(p) => (th.(pc := Route(th.pc.goal, p)), g)
    case Enter =>
      (th.(pc := Load(th.pc.goal, th.pc.start, g.nodes[th.pc.start].next), stale := th.pc.start !in th.reached), g)
    case Elsewhere => (th, g)
    case Assist => (th.(pc := Route(Help, HEAD)), g)
    case Go(n) => Advance(g, th, n)
  }

  function Advance(g: Shared, th: Thread, n: Ptr): (Thread, Shared)
    requires Enabled(g, th, Go(n))
  {
    match th.pc
    case Load(_, _, curr) => (th.(pc := AfterLoad(th, g.nodes[curr])), g)
    case Splice(goal, pred, curr, succ) =>
      if CasOk(g.nodes, pred, curr) then
        (th.(pc := Load(goal, pred, succ)),
         g.(nodes := g.nodes[pred := g.nodes[pred].(next := succ)], linked := g.linked - {curr}))
      else (th.(pc := Route(goal, HEAD)), g)
    case Publish(pred, succ) =>
      if CasOk(g.nodes, pred, succ) then
        (th.(pc := CountAdd, point := g.clock),
         g.(nodes := g.nodes[n := Node(th.key, succ, false)][pred := g.nodes[pred].(next := n)],
            linked := g.linked + {n}, cells := g.cells[n := Cell(th.val, g.clock, -1)]))
      else (th.(pc := Route(Insert, HEAD)), g)
    case CountAdd => (th.(pc := Returned(Insert, true)), g.(len := Counted(g.len, 1)))
    case Update(node) =>
      (th.(pc := Returned(Insert, false), point := g.clock),
       g.(cells := g.cells[node := g.cells[node].(value := th.val, wrote := g.clock)]))
    case ReadMark(node) => (th.(pc := if g.nodes[node].marked then Returned(Get, false) else LoadValue(node)), g)
    case LoadValue(node) => (th.(pc := Returned(Get, true), got := g.cells[node].value), g)
    case LoadSucc(node) => (th.(pc := Mark(node, g.nodes[node].next)), g)
    case Mark(node, succ) =>
      if CasOk(g.nodes, node, succ) then
        (th.(pc := Route(Unlink(node), HEAD), point := g.clock, reached := g.linked),
         g.(nodes := g.nodes[node := g.nodes[node].(marked := true)],
            cells := g.cells[node := g.cells[node].(died := g.clock)]))
      else (th.(pc := Recheck(node)), g)
    case Recheck(node) =>
      (th.(pc := if g.nodes[node].marked then Returned(Remove, false) else Mark(node, g.nodes[node].next)), g)
    case CountSub(node) => (th.(pc := Retire(node)), g.(len := Counted(g.len, -1)))
    case Retire(node) =>
      (th.(pc := Returned(Remove, true)),
       g.(retired := g.retired + [node], rushed := if th.stale then g.rushed + {node} else g.rushed))
  }

  ghost function Settle(threads: map<Tid, Thread>, t: Tid, th: Thread, nodes: Heap, linked: set<Ptr>)
    : map<Tid, Thread>
  {
    map u | u in threads :: Observe(if u == t then th else threads[u], nodes, linked)
  }

  ghost predicate Next(s: State, t: Tid, a: Action, s': State) {
    && t in s.threads && Enabled(s.g, s.threads[t], a)
    && var (th, g) := Outcome(s.g, s.threads[t], a);
    && s'.g == g.(clock := g.clock + 1)
    && s'.threads == Settle(s.threads, t, th, g.nodes, g.linked)
  }

  ghost predicate Init(s: State) {
    && s.g == Shared(map[HEAD := Node(NEG_INF, TAIL, false), TAIL := Node(POS_INF, NULL, false)],
                     {HEAD, TAIL}, map[], [], {}, 0, 0)
    && (forall t :: t in s.threads ==> s.threads[t].pc.Idle?)
  }

  ghost predicate Behavior(run: seq<State>) {
    && |run| > 0 && Init(run[0])
    && forall i {:trigger StepAt(run, i)} :: 0 <= i < |run| - 1 ==> StepAt(run, i)
  }

  ghost predicate StepAt(run: seq<State>, i: int) {
    0 <= i < |run| - 1 && Stepped(run[i], run[i + 1])
  }

  ghost predicate Stepped(s: State, s': State) {
    exists t, a :: Next(s, t, a, s')
  }

  // ---------------------------------------------------------------------------
  // The invariant
  // ---------------------------------------------------------------------------

  // The link of `p`, marked or not, leads to a node with a larger key.
  ghost predicate Up(nodes: Heap, p: Ptr) {
    p in nodes && nodes[p].next in nodes && nodes[p].key < nodes[nodes[p].next].key
  }

  // The link of `p` stays on the chain.
  ghost predicate Stays(nodes: Heap, linked: set<Ptr>, p: Ptr) {
    p in nodes && nodes[p].next in linked
  }

  // The link of `p` does not jump over `q`, and `q` is not a second copy of `p`.
  ghost predicate Ordered(nodes: Heap, p: Ptr, q: Ptr) {
    && p in nodes && q in nodes
    && (nodes[p].key == nodes[q].key ==> p == q)
    && (p != TAIL && nodes[p].key < nodes[q].key ==>
          nodes[p].next in nodes && nodes[nodes[p].next].key <= nodes[q].key)
  }

  ghost predicate Sentinels(nodes: Heap, linked: set<Ptr>) {
    && HEAD in linked && TAIL in linked && linked <= nodes.Keys && NULL !in nodes
    && nodes[HEAD].key == NEG_INF && !nodes[HEAD].marked
    && nodes[TAIL].key == POS_INF && !nodes[TAIL].marked
    && (forall p :: p in nodes && p != HEAD && p != TAIL ==> NEG_INF < nodes[p].key < POS_INF)
  }

  // `linked` is a strictly sorted chain from head to tail and holds every
  // unmarked node.
  ghost predicate Shape(nodes: Heap, linked: set<Ptr>) {
    && Sentinels(nodes, linked)
    && (forall p :: p in nodes && !nodes[p].marked ==> p in linked)
    && (forall p {:trigger Up(nodes, p)} :: p in nodes && p != TAIL ==> Up(nodes, p))
    && (forall p {:trigger Stays(nodes, linked, p)} :: p in linked && p != TAIL ==> Stays(nodes, linked, p))
    && (forall p, q {:trigger Ordered(nodes, p, q)} :: p in linked && q in linked ==> Ordered(nodes, p, q))
  }

  // What one step of any thread may do to the shared list.
  ghost predicate Rely(nodes: Heap, linked: set<Ptr>, nodes': Heap, linked': set<Ptr>) {
    && (forall p :: p in nodes ==> p in nodes' && nodes'[p].key == nodes[p].key)
    && (forall p :: p in nodes && nodes[p].marked ==> nodes'[p] == nodes[p])
    && (forall p :: p in nodes && p !in linked ==> nodes[p].marked && p !in linked')
    && (forall p :: p in linked && p !in linked' ==> p in nodes && nodes[p].marked)
  }

  ghost predicate ThreadInv(nodes: Heap, linked: set<Ptr>, retired: seq<Ptr>, th: Thread) {
    Active(th) ==> Base(nodes, linked, th) && PcInv(nodes, linked, retired, th)
  }

  // What the history variables of a running operation mean.
  ghost predicate Base(nodes: Heap, linked: set<Ptr>, th: Thread) {
    && NEG_INF < th.key < POS_INF
    && (Present(nodes, th.key) ==> th.seenIn)
    && (!Present(nodes, th.key) ==> th.seenOut)
    && linked <= th.reached
    && (forall x :: x in th.reached ==> x in nodes)
    && (forall x {:trigger PassedOver(nodes, th.reached, th.key, th.seenOut, x)} ::
          x in th.reached ==> PassedOver(nodes, th.reached, th.key, th.seenOut, x))
  }

  // A reached node that steps over the key, or holds it marked, witnesses that
  // the key has been absent.
  ghost predicate PassedOver(nodes: Heap, reached: set<Ptr>, k: real, seenOut: bool, x: Ptr) {
    && x in nodes
    && (x != TAIL ==> nodes[x].next in reached && nodes[x].next in nodes)
    && (x != TAIL && nodes[x].key < k < nodes[nodes[x].next].key ==> seenOut)
    && (nodes[x].key == k && nodes[x].marked ==> seenOut)
  }

  // A reached node that steps over the victim witnesses that it is unlinked.
  ghost predicate Bypassed(nodes: Heap, linked: set<Ptr>, reached: set<Ptr>, v: Ptr) {
    forall x {:trigger Skips(nodes, x, v)} :: x in reached && Skips(nodes, x, v) ==> v !in linked
  }

  ghost predicate Skips(nodes: Heap, x: Ptr, v: Ptr) {
    && x in nodes && v in nodes && x != TAIL && nodes[x].next in nodes && nodes[x].next != v
    && nodes[x].key < nodes[v].key <= nodes[nodes[x].next].key
  }

  ghost predicate GoalInv(nodes: Heap, linked: set<Ptr>, retired: seq<Ptr>, th: Thread, goal: Goal) {
    && (goal.Help? ==> th.point >= th.begin)
    && (goal.Unlink? ==>
          && Won(nodes, retired, th, goal.victim)
          && Bypassed(nodes, linked, th.reached, goal.victim))
  }

  // The thread's own mark removed `v`, which has not been handed over yet.
  ghost predicate Won(nodes: Heap, retired: seq<Ptr>, th: Thread, v: Ptr) {
    && v in nodes && nodes[v].marked && nodes[v].key == th.key && v !in retired
    && th.point >= th.begin && v in th.reached
  }

  ghost predicate Searching(nodes: Heap, linked: set<Ptr>, th: Thread, goal: Goal, pred: Ptr, curr: Ptr) {
    && pred in nodes && nodes[pred].key < th.key && curr in nodes
    && (!th.stale ==>
          && pred in th.reached && curr in th.reached
          && (nodes[curr].key > th.key ==> th.seenOut)
          && (goal.Unlink? && nodes[curr].key >= th.key && curr != goal.victim ==> goal.victim !in linked))
  }

  ghost predicate Target(nodes: Heap, th: Thread, node: Ptr) {
    node in th.reached && node in nodes && nodes[node].key == th.key
  }

  ghost predicate PcInv(nodes: Heap, linked: set<Ptr>, retired: seq<Ptr>, th: Thread) {
    match th.pc
    case Idle => true
    case Returned(_, _) => true
    case Route(goal, start) =>
      && GoalInv(nodes, linked, retired, th, goal)
      && start in nodes && nodes[start].key < th.key
    case Load(goal, pred, curr) =>
      && GoalInv(nodes, linked, retired, th, goal)
      && Searching(nodes, linked, th, goal, pred, curr)
    case Splice(goal, pred, curr, succ) =>
      && !goal.Get?
      && GoalInv(nodes, linked, retired, th, goal)
      && Searching(nodes, linked, th, goal, pred, curr)
      && nodes[curr].marked && nodes[curr].next == succ
    case Publish(pred, succ) =>
      && pred in nodes && succ in nodes && nodes[pred].key < th.key < nodes[succ].key
      && (!th.stale ==> pred in th.reached && succ in th.reached)
    case CountAdd => th.point >= th.begin
    case Update(node) => th.seenIn && Target(nodes, th, node)
    case ReadMark(node) => th.seenIn && Target(nodes, th, node)
    case LoadValue(node) => th.seenIn && Target(nodes, th, node)
    case LoadSucc(node) => Target(nodes, th, node)
    case Mark(node, succ) => Target(nodes, th, node) && succ in th.reached
    case Recheck(node) => Target(nodes, th, node)
    case CountSub(v) => Won(nodes, retired, th, v) && (!th.stale ==> v !in linked)
    case Retire(v) => Won(nodes, retired, th, v) && (!th.stale ==> v !in linked)
  }

  function Victim(pc: Pc): Ptr {
    match pc
    case Route(Unlink(v), _) => v
    case Load(Unlink(v), _, _) => v
    case Splice(Unlink(v), _, _, _) => v
    case CountSub(v) => v
    case Retire(v) => v
    case _ => NULL
  }

  // An insert that searches again to link its upper levels.
  predicate Helping(pc: Pc) {
    match pc
    case Route(goal, _) => goal.Help?
    case Load(goal, _, _) => goal.Help?
    case Splice(goal, _, _, _) => goal.Help?
    case _ => false
  }

  // An answer is backed by the thread's own step, or by what the operation saw;
  // "not found" only if the search did not start at a dead node.
  predicate Justified(th: Thread) {
    match th.pc
    case Returned(Insert, ok) => th.point >= th.begin && (ok || th.seenIn)
    case Returned(Remove, ok) => if ok then th.point >= th.begin else th.seenOut || th.stale
    case Returned(Get, ok) => if ok then th.seenIn else th.seenOut || th.stale
    case Returned(_, _) => false
    case _ => true
  }

  ghost predicate Retired(nodes: Heap, linked: set<Ptr>, retired: seq<Ptr>, rushed: set<Ptr>) {
    && (forall i :: 0 <= i < |retired| ==>
          && retired[i] in nodes && nodes[retired[i]].marked
          && (retired[i] !in rushed ==> retired[i] !in linked))
    && (forall i, j :: 0 <= i < j < |retired| ==> retired[i] != retired[j])
  }

  // Every data node has a value, and the time of its mark once it has one.
  ghost predicate CellsOk(nodes: Heap, cells: Cells) {
    forall p {:trigger CellOk(nodes, cells, p)} :: p in nodes ==> CellOk(nodes, cells, p)
  }

  predicate CellOk(nodes: Heap, cells: Cells, p: Ptr)
    requires p in nodes
  {
    p != HEAD && p != TAIL ==> p in cells && (nodes[p].marked <==> cells[p].died >= 0)
  }

  ghost predicate ListInv(g: Shared) {
    Shape(g.nodes, g.linked) && Retired(g.nodes, g.linked, g.retired, g.rushed) && CellsOk(g.nodes, g.cells)
  }

  ghost predicate ThreadOk(g: Shared, th: Thread) {
    && ThreadInv(g.nodes, g.linked, g.retired, th)
    && Justified(th)
    && (Active(th) ==> th.begin <= g.clock)
  }

  ghost predicate Inv(s: State) {
    && ListInv(s.g)
    && (forall t :: t in s.threads ==> ThreadOk(s.g, s.threads[t]))
    && (forall t, u :: t in s.threads && u in s.threads && t != u && Victim(s.threads[t].pc) != NULL ==>
          Victim(s.threads[t].pc) != Victim(s.threads[u].pc))
  }

  // ---------------------------------------------------------------------------
  // The three writes keep the shape, and change the key set by one key at most
  // ---------------------------------------------------------------------------

  lemma PublishKeepsShape(nodes: Heap, linked: set<Ptr>, p: Ptr, s: Ptr, n: Ptr, k: real)
    requires Shape(nodes, linked) && CasOk(nodes, p, s)
    requires s in nodes && n !in nodes && n != NULL && nodes[p].key < k < nodes[s].key && NEG_INF < k < POS_INF
    ensures var nodes' := nodes[n := Node(k, s, false)][p := nodes[p].(next := n)];
            Shape(nodes', linked + {n}) && Rely(nodes, linked, nodes', linked + {n})
  {
    var nodes' := nodes[n := Node(k, s, false)][p := nodes[p].(next := n)];
    var linked' := linked + {n};
    assert Stays(nodes, linked, p);
    forall q | q in nodes' && q != TAIL ensures Up(nodes', q) {
      if q != n && q != p { assert Up(nodes, q); }
    }
    forall q | q in linked' && q != TAIL ensures Stays(nodes', linked', q) {
      if q != n && q != p { assert Stays(nodes, linked, q); }
    }
    forall a, b | a in linked' && b in linked' ensures Ordered(nodes', a, b) {
      if a != n && b != n { assert Ordered(nodes, a, b); }
      if a == n && b != n { assert Ordered(nodes, p, b); assert Ordered(nodes, b, p); }
      if a != n && b == n { assert Ordered(nodes, a, p); assert Ordered(nodes, p, a); }
    }
  }

  lemma PublishAddsKey(nodes: Heap, linked: set<Ptr>, p: Ptr, s: Ptr, n: Ptr, k: real)
    requires Shape(nodes, linked) && CasOk(nodes, p, s)
    requires s in nodes && n !in nodes && n != NULL && nodes[p].key < k < nodes[s].key && NEG_INF < k < POS_INF
    ensures !Present(nodes, k)
    ensures Keys(nodes[n := Node(k, s, false)][p := nodes[p].(next := n)]) == Keys(nodes) + {k}
  {
    var nodes' := nodes[n := Node(k, s, false)][p := nodes[p].(next := n)];
    forall q | q in linked ensures nodes[q].key != k { assert Ordered(nodes, p, q); }
    assert forall q, j :: Holds(nodes, q, j) ==> Holds(nodes', q, j);
    assert forall q, j :: Holds(nodes', q, j) && q != n ==> Holds(nodes, q, j);
    assert Holds(nodes', n, k);
  }

  lemma SpliceKeepsShape(nodes: Heap, linked: set<Ptr>, p: Ptr, c: Ptr, s: Ptr)
    requires Shape(nodes, linked) && CasOk(nodes, p, c)
    requires c in nodes && nodes[c].marked && nodes[c].next == s && p != TAIL
    ensures var nodes' := nodes[p := nodes[p].(next := s)];
            Shape(nodes', linked - {c}) && Rely(nodes, linked, nodes', linked - {c})
  {
    var nodes' := nodes[p := nodes[p].(next := s)];
    var linked' := linked - {c};
    assert Stays(nodes, linked, p) && Up(nodes, p);
    assert Stays(nodes, linked, c) && Up(nodes, c);
    forall q | q in nodes' && q != TAIL ensures Up(nodes', q) {
      assert Up(nodes, q);
    }
    forall q | q in linked' && q != TAIL ensures Stays(nodes', linked', q) {
      assert Stays(nodes, linked, q);
      assert Ordered(nodes, p, q) && Ordered(nodes, q, p) && Up(nodes, q);
    }
    forall a, b | a in linked' && b in linked' ensures Ordered(nodes', a, b) {
      assert Ordered(nodes, a, b) && Ordered(nodes, c, b) && Ordered(nodes, b, c);
    }
  }

  lemma SpliceKeepsKeys(nodes: Heap, p: Ptr, s: Ptr)
    requires p in nodes
    ensures Keys(nodes[p := nodes[p].(next := s)]) == Keys(nodes)
    ensures forall j :: Present(nodes[p := nodes[p].(next := s)], j) == Present(nodes, j)
  {
    var nodes' := nodes[p := nodes[p].(next := s)];
    assert forall q, j :: Holds(nodes, q, j) <==> Holds(nodes', q, j);
  }

  lemma MarkKeepsShape(nodes: Heap, linked: set<Ptr>, v: Ptr)
    requires Shape(nodes, linked) && v in nodes && !nodes[v].marked && v != HEAD && v != TAIL
    ensures var nodes' := nodes[v := nodes[v].(marked := true)];
            Shape(nodes', linked) && Rely(nodes, linked, nodes', linked)
  {
    var nodes' := nodes[v := nodes[v].(marked := true)];
    forall q | q in nodes' && q != TAIL ensures Up(nodes', q) { assert Up(nodes, q); }
    forall q | q in linked && q != TAIL ensures Stays(nodes', linked, q) { assert Stays(nodes, linked, q); }
    forall a, b | a in linked && b in linked ensures Ordered(nodes', a, b) { assert Ordered(nodes, a, b); }
  }

  lemma MarkDropsKey(nodes: Heap, linked: set<Ptr>, v: Ptr)
    requires Shape(nodes, linked) && v in nodes && !nodes[v].marked && v != HEAD && v != TAIL
    ensures nodes[v].key in Keys(nodes)
    ensures Keys(nodes[v := nodes[v].(marked := true)]) == Keys(nodes) - {nodes[v].key}
  {
    var nodes' := nodes[v := nodes[v].(marked := true)];
    assert Holds(nodes, v, nodes[v].key);
    forall q, j | Holds(nodes, q, j) && q != v ensures Holds(nodes', q, j) && j != nodes[v].key {
      assert Ordered(nodes, q, v);
    }
    assert forall q, j :: Holds(nodes', q, j) ==> Holds(nodes, q, j) && q != v;
  }

  // ---------------------------------------------------------------------------
  // The history variables keep their meaning, whichever thread moves
  // ---------------------------------------------------------------------------

  lemma LinkedWitness(nodes: Heap, linked: set<Ptr>, th: Thread, x: Ptr)
    requires Shape(nodes, linked) && linked <= th.reached
    requires !Present(nodes, th.key) ==> th.seenOut
    requires x in linked && NEG_INF < th.key < POS_INF
    ensures PassedOver(nodes, th.reached, th.key, th.seenOut, x)
  {
    if x != TAIL { assert Stays(nodes, linked, x); }
    if Present(nodes, th.key) {
      var p :| Holds(nodes, p, th.key);
      assert Ordered(nodes, x, p);
    }
  }

  lemma BaseKept(nodes: Heap, linked: set<Ptr>, nodes': Heap, linked': set<Ptr>, th: Thread)
    requires Shape(nodes, linked) && Shape(nodes', linked') && Rely(nodes, linked, nodes', linked')
    requires Base(nodes, linked, th)
    ensures Base(nodes', linked', Look(th, nodes', linked'))
  {
    var th' := Look(th, nodes', linked');
    forall x | x in th'.reached ensures PassedOver(nodes', th'.reached, th'.key, th'.seenOut, x) {
      if x in linked' {
        LinkedWitness(nodes', linked', th', x);
      } else {
        assert nodes'[x] == nodes[x] && PassedOver(nodes, th.reached, th.key, th.seenOut, x);
      }
    }
  }

  lemma BaseFromChain(nodes: Heap, linked: set<Ptr>, th: Thread)
    requires Shape(nodes, linked) && NEG_INF < th.key < POS_INF && th.reached == linked
    ensures Base(nodes, linked, Look(th, nodes, linked))
  {
    var th' := Look(th, nodes, linked);
    forall x | x in th'.reached ensures PassedOver(nodes, th'.reached, th'.key, th'.seenOut, x) {
      LinkedWitness(nodes, linked, th', x);
    }
  }

  lemma ChainBypasses(nodes: Heap, linked: set<Ptr>, v: Ptr)
    requires Shape(nodes, linked) && v in nodes
    ensures Bypassed(nodes, linked, linked, v)
  {
    forall x | x in linked && Skips(nodes, x, v) ensures v !in linked {
      assert Stays(nodes, linked, x);
      assert v in linked ==> Ordered(nodes, x, v);
      assert v in linked ==> Ordered(nodes, nodes[x].next, v);
    }
  }

  lemma BypassKept(nodes: Heap, linked: set<Ptr>, nodes': Heap, linked': set<Ptr>, reached: set<Ptr>, v: Ptr)
    requires Shape(nodes, linked) && Shape(nodes', linked') && Rely(nodes, linked, nodes', linked')
    requires v in nodes && Bypassed(nodes, linked, reached, v) && reached <= nodes.Keys
    ensures Bypassed(nodes', linked', reached + linked', v)
  {
    ChainBypasses(nodes', linked', v);
    forall x | x in reached + linked' && Skips(nodes', x, v) ensures v !in linked' {
      if x !in linked' { assert nodes'[x] == nodes[x] && Up(nodes, x) && Skips(nodes, x, v); }
    }
  }

  // Whatever a step does to the list, a thread that did not move keeps its invariant.
  lemma PcKept(nodes: Heap, linked: set<Ptr>, nodes': Heap, linked': set<Ptr>, retired: seq<Ptr>, th: Thread)
    requires Shape(nodes, linked) && Shape(nodes', linked') && Rely(nodes, linked, nodes', linked')
    requires Base(nodes, linked, th) && PcInv(nodes, linked, retired, th)
    ensures PcInv(nodes', linked', retired, Look(th, nodes', linked'))
  {
    var v := Victim(th.pc);
    if v != NULL && !th.pc.CountSub? && !th.pc.Retire? {
      BypassKept(nodes, linked, nodes', linked', th.reached, v);
    }
  }
}
