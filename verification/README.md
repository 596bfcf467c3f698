# Verification of zerokv

A Dafny model of the concurrent protocols of the zerokv engine, with proofs about
every interleaving of their steps and every input.

A protocol is a state machine whose steps are the atomic operations of the code:
one load, store, compare-and-swap, swap, queue operation or critical section each,
under sequentially consistent interleaving.  The steps are functions of what is
shared and of the actor's private state; a run is any finite sequence of steps of
any actors; lock freedom of the skiplist is stated of infinite runs.  Each machine has
an invariant that every step of every actor keeps, and the theorems hold in every
state of every run.  Parts of the state that no step reads (logs, stages, owners,
earlier observations) are history variables and are named as such at the top of each
file.  What one thread does alone is modelled by classes with loops.

| file | what it models |
|---|---|
| `Keys.dfy`, `Bits.dfy` | key representation and order; masks, wrapping cursors, FNV-1a routing |
| `Common.dfy`, `Matrix.dfy` | the word size and options; queues between workers and who owns a key |
| `BottomList.dfy`, `BottomSteps.dfy`, `BottomRuns.dfy` | level 0 of the lock-free skiplist under concurrent find, insert, get, remove |
| `BottomLinear.dfy`, `BottomOrder.dfy`, `BottomHistory.dfy`, `BottomCalls.dfy` | what its operations answer, one by one, in one order, and to the calls |
| `BottomHandover.dfy`, `BottomReclaim.dfy` | its retired nodes and `len`; together with the epochs |
| `Tower.dfy`, `TowerClean.dfy`, `TowerHistory.dfy` | all levels under concurrency; when the answers are right |
| `TowerFilm.dfy`, `TowerStory.dfy`, `TowerStale.dfy`, `TowerRetire.dfy` | runs in which an answer is wrong, or a retired node is still there |
| `TowerSolo.dfy`, `TowerSafe.dfy` | one thread on all levels; when retired nodes are out of reach |
| `TowerRank.dfy`, `TowerProgress.dfy`, `TowerStuck.dfy`, `TowerFinish.dfy`, `TowerLockFree.dfy` | which operations return: levels without cycles, bounds on the steps, a run after which inserts hang, lock freedom |
| `SkipHeap.dfy`, `SkipList.dfy` | the whole skiplist run by one thread: towers, marks, helping, ownership, teardown |
| `Ebr.dfy`, `EbrDomain.dfy`, `EbrAlone.dfy` | epoch-based reclamation: interleaved, as an object, and the one as the other |
| `Shard.dfy` | the sharded index over the skiplists |
| `Spsc.dfy` | the single-producer single-consumer ring, interleaved and as an object |
| `Mesh.dfy` | the closed Put workload of the mesh and its quiescence |
| `Service.dfy`, `ServiceSteps.dfy`, `ServiceRuns.dfy`, `ServiceProgress.dfy`, `ServiceCalls.dfy` | the request service of the mesh |
| `Wal.dfy`, `WalDurable.dfy`, `WalAppends.dfy` | group commit: append, batching, writing, signalling, shutdown; what is in the file and when |
| `Executor.dfy`, `Parking.dfy` | executor, commit futures, `block_on`, and the waiting client |
| `Arena.dfy`, `RegBuf.dfy` | bump arena; registered buffers and positional writes |

The main results:

- **Reclamation.** A live guard holds the epoch to at most one past its publication,
  so nothing it may hold is freed; every unlinked object is in exactly one place; once nothing
  is pinned two rounds of a collector free all garbage.
- **Skiplist.** With any number of threads the sorted chain of level 0, the map it stands for
  and the steps that change it are as they should be, and inserts and removes that claim a
  change made it.  As long as no insert writes over a mark on its own upper links, all
  operations stand in one order, answering as one map and keeping to real time, and retired
  nodes are unreachable on level 0; an operation left alone returns within a bounded number
  of steps, and under any schedule operations return again and again.  These things hold of
  every run exactly if there is one level or one thread: every answer is right, operations keep
  returning, retired nodes are unreachable on level 0, they are on no level, and no operation
  reads a node retired before it began.  Alone, the full list refines a map for every choice of
  tower heights and every node and cell has exactly one owner.
- **Service.** Every run of the clients' calls is linearizable to one map, a get returns what
  the last put wrote, tokens match replies to clients, and for any queue capacity fair
  schedules answer every request.
- **Mesh.** A worker exits only when everything is applied; the final contents are
  characterized; fair schedules make every worker exit.
- **Write-ahead log.** Until a write fails the file is exactly the bytes handed to append;
  completion means durable exactly if no write failed; order follows real time; shutdown
  flushes all.
- **Ring.** What is offered and not refused is delivered, in order, each value once.
- **Executor.** `run` returns only when every record its tasks await is done, and it always gets there
  unless a spawn from another thread is overtaken between its count and its push.

Premises, taken over from what the code relies on: one live guard per thread and unlinking
before retiring, which holds of the list on the conditions of `TowerSafe`; epochs below 2^62;
fewer than 2^48 forwarded requests per worker; a power of two of shards, which the code rounds
up to; addresses and the rounding of the arena inside the address range; `drop` of the log with
no append under way, which exclusive access guarantees.  Nothing is presumed about where a
search enters level 0; results that need it say so.

Five promises of the code and its documentation do not hold as stated.

- A lookup is to find a key that is there.  `insert` links its upper levels after it has
  published its node, storing into its own links without looking at their marks.  If the node
  is removed meanwhile, the dead node comes back on an upper level, and searches that go down
  through it enter level 0 off the chain.  `TowerStale.WrongAnswer` gives a run,
  `TowerStale.RightIffFlatOrAlone` the exact condition, `TowerClean.CleanRunsAreRight` what
  holds of a run in which no mark is written over.
- The list is to be lock-free.  By the same store a search for a larger key enters level 0 at
  the dead node, and a CAS on its marked link fails every time: `TowerStuck.InsertsHang` and
  `TowerFinish.HangsForGood` give a run after which no insert of a larger key returns again,
  whatever any thread does.  `TowerLockFree.LockFreeIffFlatOrAlone` is the exact condition (for
  an operation that is left alone `TowerFinish.ReturnsIffFlatOrAlone`), `TowerLockFree.LockFree`
  what holds of a run in which no mark is written over.
- A node is to be unlinked before it is retired, and `find` is to meet no node that is
  reclaimed under it.  By the same store a remove can go past its own node and retire it while
  head leads to it on level 0: `TowerRetire.RetiredReachable` gives a run.  Even if no mark is
  written over, an insert can link its node on an upper level after the node was removed and
  retired: `TowerRetire.CleanRunTouchesRetired` gives a run.  The exact conditions are
  `TowerSafe.UnreachableIffFlatOrAlone`, `TowerSafe.OffLevelsIffFlatOrAlone` and
  `TowerSafe.HoldsFreshIffFlatOrAlone`.
- A commit future is said to resolve once its batch is durable, but the batcher discards the
  result of the write and signals the batch anyway.  `Wal.FailureLosesRecord` gives a run,
  `WalDurable.WrittenIffNoFailure` the exact condition.
- `run` is to drive every spawned task to its end, but `spawn` counts a task before it queues
  it and notifies nobody.  `Executor.LostWakeup` gives a run, `Executor.GetsLost` the exact
  condition.

## Model

| member | source | states |
|---|---|---|
| `Keys.ReprRoundTrip` | crates/zerokv/src/skiplist.rs:69-112 | a key put into its inline or boxed representation reads back unchanged, and an inline buffer has the fixed size |
| `Keys.RankOrder` | crates/zerokv/src/skiplist.rs:363-377 | byte-string order embeds exactly into the order of ranks, in both directions |
| `Keys.CompareRanks` | crates/zerokv/src/skiplist.rs:363-377 | `key_lt` and `key_eq`, sentinels included, hold exactly when the ranks compare so |
| `Bits.Fnv1a` | crates/zerokv/src/shard.rs:17-24 | the hash loop computes the recursive FNV-1a of the bytes modulo 2^64 |
| `Bits.XorBit` | crates/zerokv/src/shard.rs:20-20 | `^` works bit by bit, on every bit of any two words |
| `Bits.XorTwice` | crates/zerokv/src/shard.rs:20-20 | and is undone by the same operand |
| `Bits.StepTellsApart` | crates/zerokv/src/shard.rs:19-22 | hashing one more byte loses nothing: equal hashes afterwards with the same byte mean equal hashes before, and from the same hash different bytes give different ones |
| `Bits.OneByteMatters` | crates/zerokv/src/shard.rs:17-24 | keys of any length that differ in exactly one byte have different hashes |
| `Bits.TestVectors` | crates/zerokv/src/shard.rs:17-24 | the published FNV-1a values of the empty string and of "a" |
| `Bits.AndBit` | crates/zerokv/src/shard.rs:48-52 | `&` works bit by bit |
| `Bits.OrBit` | crates/zerokv/src/mesh.rs:677-677 | and so does `|` |
| `Bits.MaskIsMod` | crates/zerokv/src/shard.rs:48-52 | `x & (n - 1)` is `x % n` for every power of two `n` and every `x` |
| `Bits.RouteIsMod` | crates/zerokv/src/mesh.rs:75-82 | routing is the hash modulo the number of shards, for every key and every power of two |
| `Bits.NextPow2` | crates/zerokv/src/shard.rs:35-36 | `next_power_of_two`: a power of two, not below the argument and less than twice it |
| `Bits.LeastPow2` | crates/zerokv/src/spsc.rs:62-62 | and no smaller power of two will do |
| `Bits.MaskRoundsDown` | crates/zerokv/src/arena.rs:75-78 | `x & !(n - 1)` in a word rounds down to the multiple of `n` |
| `Bits.OrDisjoint` | crates/zerokv/src/mesh.rs:677-677 | `(a << k) | b` is a sum when `b` has no bit in common with the shifted part |
| `Bits.CursorDistance` | crates/zerokv/src/spsc.rs:82-117 | `wrapping_sub` of two wrapped cursors is the distance of the counters behind them, and equal cursors mean equal counters, less than a word apart |
| `Shard.ShardedIndex.constructor` | crates/zerokv/src/shard.rs:34-46 | a power-of-two number of distinct empty shards, at least as many as asked for and less than twice that |
| `Shard.ShardedIndex.ShardOf` | crates/zerokv/src/shard.rs:48-52 | hash and mask give the routed shard |
| `Shard.ShardedIndex.OneHome` | crates/zerokv/src/shard.rs:48-72 | a key is in the index exactly if some shard has it, only the shard of its hash modulo their number can, and with the same value |
| `Shard.ShardedIndex.Insert` | crates/zerokv/src/shard.rs:56-59 | the whole index changes like one map, only the routed shard is touched, the answer says whether the key was new |
| `Shard.ShardedIndex.Remove` | crates/zerokv/src/shard.rs:74-77 | the whole index loses exactly that key, only the routed shard is touched, the answer says whether it was there |
| `Shard.ShardedIndex.Get` | crates/zerokv/src/shard.rs:63-72 | lookup answers like one map |
| `Shard.ShardedIndex.Len` | crates/zerokv/src/shard.rs:80-82 | the sum of the shard lengths is the number of entries of the one map |
| `BottomList.PublishKeepsShape` | crates/zerokv/src/skiplist.rs:487-496 | the publish CAS keeps the chain sorted, complete and its marked links frozen |
| `BottomList.PublishAddsKey` | crates/zerokv/src/skiplist.rs:487-496 | the key was absent, and a successful publish adds exactly it |
| `BottomList.SpliceKeepsShape` | crates/zerokv/src/skiplist.rs:419-429 | unlinking a marked node keeps the chain sorted and every unmarked node on it |
| `BottomList.SpliceKeepsKeys` | crates/zerokv/src/skiplist.rs:419-429 | unlinking changes no key |
| `BottomList.MarkKeepsShape` | crates/zerokv/src/skiplist.rs:597-604 | setting the bottom mark keeps the chain |
| `BottomList.MarkDropsKey` | crates/zerokv/src/skiplist.rs:597-604 | a successful bottom mark removes exactly that key |
| `BottomSteps.StepKeepsInv` | crates/zerokv/src/skiplist.rs:401-618 | every atomic step of every concurrent find, insert, get and remove keeps the full invariant, wherever its search enters level 0 |
| `BottomSteps.AlwaysInv` | crates/zerokv/src/skiplist.rs:401-618 | the invariant holds in every state of every run, searches from dead nodes included |
| `BottomRuns.ReachableIffLinked` | crates/zerokv/src/skiplist.rs:401-450 | in every reachable state a walk from head reaches exactly the chain, tail included, and no published unmarked node is missed |
| `BottomRuns.WalkSorted` | crates/zerokv/src/skiplist.rs:401-450 | any walk from head meets strictly increasing keys |
| `BottomRuns.KeySetStep` | crates/zerokv/src/skiplist.rs:487-604 | a publish adds the key, a mark drops it, no other step changes the set, and a marked link never changes again |
| `BottomRuns.MapStep` | crates/zerokv/src/skiplist.rs:466-604 | the list stands for a map: a publish adds the entry, a mark removes it, a value swap on a node still there overwrites it, no other step changes the map |
| `BottomLinear.CellHistory` | crates/zerokv/src/skiplist.rs:466-475 | what a node's value is was written by the insert that made the node or by a swap, and has not changed since; a marked node was marked by one step |
| `BottomLinear.ReadValue` | crates/zerokv/src/skiplist.rs:553-563 | the value a get loads was in the map at an instant since it began, or was written to the node after a removal that happened since it began |
| `BottomLinear.Linearizable` | crates/zerokv/src/skiplist.rs:401-618 | an insert or remove that claims a change made it by its own step, which changed the map so; other answers, values included, were right at an instant between begin and return; a write to a node removed meanwhile, and a get that reads it, fall right before that removal; the only exception is "not found" after a search that entered level 0 at a node not on the chain since it began |
| `BottomOrder.OneDecision` | crates/zerokv/src/skiplist.rs:455-618 | an operation is decided by exactly one of its steps |
| `BottomOrder.Decided` | crates/zerokv/src/skiplist.rs:455-618 | every operation that has returned was decided between its begin and its return, and the deciding step names the answer it gave |
| `BottomHistory.OneOrder` | crates/zerokv/src/skiplist.rs:455-618 | if every answer of a run is right on its own, all its operations, each once, stand in one order in which each answers as one map would have; the map starts empty and ends as what the list stands for |
| `BottomHistory.Answered` | crates/zerokv/src/skiplist.rs:455-618 | every operation that has returned is in that order, with the answer it gave |
| `BottomHistory.RealTimeOrder` | crates/zerokv/src/skiplist.rs:455-618 | what had returned before another operation began comes before it in that order |
| `BottomCalls.AsAsked` | crates/zerokv/src/skiplist.rs:455-618 | while a thread is in the operation a call began, it works on the key and the value of that call, to the end that call asked for |
| `BottomCalls.Asked` | crates/zerokv/src/skiplist.rs:455-618 | and every operation was begun by such a call |
| `BottomCalls.CallIsInOrder` | crates/zerokv/src/skiplist.rs:455-618 | every call that has returned is in the one order, at a step of its own between begin and return, as the insert, remove or get of the key and value it was called with and with what it returned |
| `BottomHandover.RetiredGrows` | crates/zerokv/src/skiplist.rs:605-611 | what has been handed to reclamation stays handed over, in order |
| `BottomHandover.RetiredOnceAndUnreachable` | crates/zerokv/src/skiplist.rs:605-611 | a node is retired at most once, and from then on unreachable on level 0 for ever unless its remover's second search entered level 0 at a node not on the chain since the mark (when that can happen: `TowerSafe.UnreachableIffFlatOrAlone`) |
| `BottomHandover.OneWinner` | crates/zerokv/src/skiplist.rs:597-616 | two removers never win the same node, nobody wins a retired node, and the same on the node being unreachable once the second search has returned |
| `BottomHandover.RemovedIsRetired` | crates/zerokv/src/skiplist.rs:605-611 | in every run a remove that has returned true has handed over the node it marked |
| `BottomHandover.NothingLeaks` | crates/zerokv/src/skiplist.rs:597-611 | in every run every marked node has been handed over, or the remove that marked it is under way |
| `BottomHandover.AllHandedWhenQuiet` | crates/zerokv/src/skiplist.rs:597-611 | with no operation in progress exactly the removed nodes have been handed over |
| `BottomHandover.AlwaysLen` | crates/zerokv/src/skiplist.rs:515-515 | in every run `len`, wrapping at 2^64, differs from the number of keys by exactly the operations between their effect and their count |
| `BottomHandover.LenExactWhenQuiet` | crates/zerokv/src/skiplist.rs:355-357 | with no operation in progress `len` is the number of keys |
| `BottomReclaim.RegistersWereLinked` | crates/zerokv/src/skiplist.rs:401-618 | every pointer in the level 0 registers of a running operation was on the chain at some instant since the operation began, unless its search started at a dead node |
| `BottomReclaim.RegistersNotFreed` | crates/zerokv/src/skiplist.rs:394-400 | level 0 and epochs together: under a guard that lives as long as the operation, no node in its level 0 registers is freed, unless its own search or that of the node's remover started at a dead node (all levels: `TowerSafe.HeldNotFreed`) |
| `Tower.BaseRun` | crates/zerokv/src/skiplist.rs:401-618 | level 0 of every run of the whole concurrent skiplist, all levels included, is a run of the level 0 model |
| `Tower.UpKept` | crates/zerokv/src/skiplist.rs:411-448 | every step keeps the upper levels usable: a node that a link, a predecessor or a successor names at a level has that level |
| `Tower.AlwaysUp` | crates/zerokv/src/skiplist.rs:411-448 | so it is in every state of every run |
| `Tower.NeverStuck` | crates/zerokv/src/skiplist.rs:411-618 | the next step of a running operation is always possible, whatever the other threads have done: every node and link it follows is there |
| `TowerClean.OnlyStoreClears` | crates/zerokv/src/skiplist.rs:506-506 | a mark on an upper link is lost exactly when an insert stores its successor into that link of its own node |
| `TowerClean.CleanRunsAreRight` | crates/zerokv/src/skiplist.rs:401-618 | in a run in which no such store hits a mark every answer is right, at every height and with any number of threads |
| `TowerClean.CleanRunsReclaim` | crates/zerokv/src/skiplist.rs:401-618 | in such a run a retired node is unreachable on level 0, and level 0 registers hold only nodes that were on the chain since the operation began (upper levels: `TowerRetire.CleanRunTouchesRetired`) |
| `TowerHistory.CleanOrder` | crates/zerokv/src/skiplist.rs:401-618 | in such a run all operations, each once, stand in one order in which each answers as one map would have |
| `TowerHistory.CleanRealTime` | crates/zerokv/src/skiplist.rs:401-618 | and of two operations of which one had returned before the other began the first comes first |
| `TowerHistory.CleanCall` | crates/zerokv/src/skiplist.rs:455-618 | and each call is there as what it asked for and what it returned |
| `TowerClean.FlatOrAloneIsClean` | crates/zerokv/src/skiplist.rs:498-513 | with a single level, or a single thread, every run is of that kind |
| `TowerStale.WrongAnswer` | crates/zerokv/src/skiplist.rs:498-566 | with an upper level and two threads, for any keys x < y: a run in which a get of y answers that it is not there, and it is there from before the get begins to its return; on its way the get reads a node that was retired before it began |
| `TowerStale.RightIffFlatOrAlone` | crates/zerokv/src/skiplist.rs:401-618 | every answer of every run is right if and only if `max_level` is 0 or there is at most one thread |
| `TowerRetire.RetiredReachable` | crates/zerokv/src/skiplist.rs:498-611 | with an upper level and two threads, for any keys x < y: a run that ends with a node retired to which head still leads on level 0 |
| `TowerRetire.CleanRunTouchesRetired` | crates/zerokv/src/skiplist.rs:498-513 | the same without any mark written over: an insert that has stored its successor links its node on level 1 after the node was retired, and a get that begins later reads it |
| `TowerSolo.TidyStep` | crates/zerokv/src/skiplist.rs:401-618 | alone: every step keeps each upper level a sorted chain of nodes that are not removed, each level part of the one below, but for the node being removed |
| `TowerSolo.AlwaysTidy` | crates/zerokv/src/skiplist.rs:401-618 | so it is in every state of every run of one thread, at every height |
| `TowerSafe.UnreachableIffFlatOrAlone` | crates/zerokv/src/skiplist.rs:605-611 | in every run head leads to no retired node on level 0, if and only if `max_level` is 0 or there is at most one thread |
| `TowerSafe.OffLevelsIffFlatOrAlone` | crates/zerokv/src/skiplist.rs:605-611 | in every run head leads to no retired node on any level, if and only if `max_level` is 0 or there is at most one thread |
| `TowerSafe.HoldsFreshIffFlatOrAlone` | crates/zerokv/src/skiplist.rs:394-411 | in every run no operation has at hand, on any level, a node that was retired before the operation began, if and only if `max_level` is 0 or there is at most one thread |
| `TowerSafe.HeldNotFreed` | crates/zerokv/src/skiplist.rs:394-411 | in a run that keeps this, under a guard that lives as long as the operation nothing it has at hand on any level is freed |
| `TowerRank.RankKept` | crates/zerokv/src/skiplist.rs:411-513 | every step of every thread keeps every upper link leading to a larger key, or to a node of the same key that was linked on that level before |
| `TowerRank.AlwaysRanked` | crates/zerokv/src/skiplist.rs:411-513 | so it is in every state of every run, whatever marks are written over |
| `TowerProgress.LevelsEnd` | crates/zerokv/src/skiplist.rs:411-448 | so in every run, from every node, dead or alive, every level leads to tail |
| `TowerProgress.AloneNearer` | crates/zerokv/src/skiplist.rs:401-618 | where marks come from the top below its key, every own step of an operation brings it nearer to its end, restarts included |
| `TowerFinish.AloneBounded` | crates/zerokv/src/skiplist.rs:401-618 | so an operation left alone takes at most that many steps, however they turn out |
| `TowerFinish.LeftAloneReturns` | crates/zerokv/src/skiplist.rs:401-618 | in a run in which no mark is written over, with any number of threads in any position, an operation left alone returns within 5 (m + 1) (2 N + 8) steps, for `max_level` m and N nodes, dead ones included |
| `TowerFinish.RetriesMeanChange` | crates/zerokv/src/skiplist.rs:401-618 | with other threads at work, from such a state on, it takes more own steps than that only if meanwhile another thread has changed a link |
| `TowerLockFree.StepFalls` | crates/zerokv/src/skiplist.rs:401-618 | every step of a running operation that writes over no mark lowers what is still to be linked and marked, or else what is still to be unlinked, or else the distance of all operations from their ends |
| `TowerLockFree.LockFree` | crates/zerokv/src/skiplist.rs:1-9 | lock freedom: in every infinite run in which no mark is written over, with any threads and any schedule, after every step some operation returns |
| `TowerLockFree.LockFreeIffFlatOrAlone` | crates/zerokv/src/skiplist.rs:1-9 | in every infinite run operations return again and again, if and only if `max_level` is 0 or there is at most one thread |
| `TowerStuck.CurseKept` | crates/zerokv/src/skiplist.rs:401-618 | once level 1 leads through a dead node with tail behind it on level 0, no step of any thread changes that, or lets an insert of a larger key publish |
| `TowerStuck.InsertsHang` | crates/zerokv/src/skiplist.rs:498-513 | with an upper level and two threads, for any key x: a run that ends with no operation under way, and in every continuation no insert of a key larger than x returns, whatever any thread does |
| `TowerFinish.HangsForGood` | crates/zerokv/src/skiplist.rs:409-496 | for any keys x < z: an insert of z that begins then is under way at the end of every continuation |
| `TowerFinish.ReturnsIffFlatOrAlone` | crates/zerokv/src/skiplist.rs:1-9 | in every run every operation can return if it is left alone, if and only if `max_level` is 0 or there is at most one thread |
| `Ebr.StepKeepsInv` | crates/zerokv/src/ebr.rs:81-230 | every step of every pinner, retirer and collector keeps the invariant |
| `Ebr.AlwaysInv` | crates/zerokv/src/ebr.rs:81-230 | the invariant holds in every reachable state whose epoch is below 2^62 |
| `Ebr.EpochRises` | crates/zerokv/src/ebr.rs:140-145 | the epoch never goes back |
| `Ebr.ScanSees` | crates/zerokv/src/ebr.rs:128-139 | a scan does not miss a guard older than the epoch it started from, late slot claims and stale high-water marks included |
| `Ebr.AdvanceSafe` | crates/zerokv/src/ebr.rs:140-145 | the advance CAS leaves the epoch at most one past the publication of any live guard |
| `Ebr.ReclaimLedger` | crates/zerokv/src/ebr.rs:163-181 | what is freed was tagged at least two epochs before |
| `Ebr.EpochLag` | crates/zerokv/src/ebr.rs:81-154 | while a guard is live the epoch rises by at most one |
| `Ebr.GracePeriod` | crates/zerokv/src/ebr.rs:81-181 | an object still linked at some moment of a guard's life, or unlinked and its retirement still to load the epoch, is not freed before the guard is dropped |
| `Ebr.NoUseAfterFree` | crates/zerokv/src/ebr.rs:81-181 | no pointer a live guard holds has been freed, whether read off the structure or off a node already unlinked; only objects whose retirement loaded its epoch before the slot was published are out of bounds |
| `Ebr.GarbageConserved` | crates/zerokv/src/ebr.rs:98-200 | every unlinked object is in exactly one place, once: with its retirer, in one bag, in one collector's list, or freed |
| `EbrDomain.Domain.constructor` | crates/zerokv/src/ebr.rs:66-76 | a fresh domain: epoch 0, all slots free, high-water mark 0, empty bags |
| `EbrDomain.Domain.LocalSlot` | crates/zerokv/src/ebr.rs:203-229 | the cached slot, or the first free one claimed with the high-water mark raised, or none when all are taken (where the source panics) |
| `EbrDomain.Domain.Pin` | crates/zerokv/src/ebr.rs:81-90 | exactly if the thread has a slot or one is free, a slot below the high-water mark, its own or a free one, holds the current epoch; otherwise nothing changes |
| `EbrDomain.Domain.CollectWhilePinned` | crates/zerokv/src/ebr.rs:125-181 | while a slot is pinned any number of collections advance the epoch at most once past it and keep every record of its epoch or later |
| `EbrDomain.Domain.RetireUnderGuard` | crates/zerokv/src/ebr.rs:81-120 | an object retired under a guard is still in its bag after any number of collections while the guard lives |
| `EbrDomain.Domain.DropAndCollect` | crates/zerokv/src/ebr.rs:250-270 | after the last guard is dropped two collections free it |
| `EbrDomain.Domain.ReclaimBag` | crates/zerokv/src/ebr.rs:157-200 | run alone, the bag becomes its young records in their old order and exactly the others are freed, in order |
| `EbrDomain.Domain.TryCollect` | crates/zerokv/src/ebr.rs:125-154 | the epoch advances exactly if every pinned slot has it, and every bag is filtered with the resulting epoch |
| `EbrDomain.Domain.CollectTwice` | crates/zerokv/src/ebr.rs:125-154 | with no thread pinned two collections empty the bags and free everything that was in them, each object once |
| `EbrDomain.FilterConserves` | crates/zerokv/src/ebr.rs:163-181 | the filter loses nothing and frees nothing twice |
| `EbrDomain.KeptIsYoung` | crates/zerokv/src/ebr.rs:163-181 | a record survives exactly if it is not two epochs old |
| `EbrDomain.TwoPassesEmpty` | crates/zerokv/src/ebr.rs:147-153 | records old enough for the second of two passes are all gone after both |
| `EbrAlone.ReclaimAlone` | crates/zerokv/src/ebr.rs:157-200 | the collector of the interleaved model, run without interference on a bag, filters it as `reclaim_bag` does and goes on to the next bag, or ends after the third |
| `EbrAlone.RoundAlone` | crates/zerokv/src/ebr.rs:125-154 | a whole round of that collector: the epoch advances exactly if every pinned slot up to the high-water mark shows it, all three bags keep exactly what is younger than two epochs, and exactly the rest is freed |
| `EbrAlone.TwoRoundsAlone` | crates/zerokv/src/ebr.rs:125-154 | with nothing pinned two rounds empty the bags and free everything that was in them, each object once |
| `EbrAlone.GarbageIsFreed` | crates/zerokv/src/ebr.rs:125-154 | from any state of any interleaved run in which no slot is pinned, the steps of two rounds free every object in the bags |
| `EbrAlone.PinAlone` | crates/zerokv/src/ebr.rs:81-229 | a thread's own steps claim the first free slot, raise the high-water mark to it and publish the current epoch there, or panic exactly if none is free |
| `EbrAlone.RetireAlone` | crates/zerokv/src/ebr.rs:98-120 | three steps of a retirer put the record into the bag of the current epoch, tagged with it |
| `EbrAlone.TakenNotFreed` | crates/zerokv/src/ebr.rs:81-181 | a pointer a guard takes by a step of the run is not freed as long as the guard lives |
| `SkipHeap.SpliceKeeps` | crates/zerokv/src/skiplist.rs:419-429 | splicing a marked node out of one level keeps all levels well formed and touches nothing unmarked |
| `SkipHeap.LinkKeeps` | crates/zerokv/src/skiplist.rs:498-513 | linking a node between its neighbours at the next level of its tower keeps all levels well formed |
| `SkipHeap.MarkKeeps` | crates/zerokv/src/skiplist.rs:584-602 | marking top-down keeps all levels well formed |
| `SkipHeap.NothingBetween` | crates/zerokv/src/skiplist.rs:430-438 | nothing of a level lies between the two neighbours a search returns |
| `SkipList.FirstUnique` | crates/zerokv/src/skiplist.rs:447-448 | the first unmarked bottom node not below a key is unique |
| `SkipList.FirstDecides` | crates/zerokv/src/skiplist.rs:447-448 | that node has the key exactly if the map does, and then its cell holds the map's value |
| `SkipList.SkipList.constructor` | crates/zerokv/src/skiplist.rs:337-351 | an empty list: two sentinels linked at every level, empty map |
| `SkipList.SkipList.Cas` | crates/zerokv/src/skiplist.rs:167-176 | compare-and-swap on an unmarked link: succeeds exactly on the expected unmarked reference and changes only that link |
| `SkipList.SkipList.AttemptMark` | crates/zerokv/src/skiplist.rs:179-188 | the same for setting the mark |
| `SkipList.SkipList.Splice` | crates/zerokv/src/skiplist.rs:420-428 | one marked successor is unlinked and the rest of the level is closer to its end |
| `SkipList.SkipList.SkipMarked` | crates/zerokv/src/skiplist.rs:415-429 | a run of marked successors is unlinked and an unmarked one is found |
| `SkipList.SkipList.FindLevel` | crates/zerokv/src/skiplist.rs:413-436 | one level of the search ends at the two neighbours of the key |
| `SkipList.SkipList.Find` | crates/zerokv/src/skiplist.rs:401-450 | neighbours at every level, whether the bottom level has the key, and only marked nodes unlinked |
| `SkipList.SkipList.Search` | crates/zerokv/src/skiplist.rs:462-463 | between operations a search changes no level and answers whether the map has the key |
| `SkipList.SkipList.Update` | crates/zerokv/src/skiplist.rs:463-475 | the map gets the new value and exactly the displaced cell is retired |
| `SkipList.SkipList.NewNode` | crates/zerokv/src/skiplist.rs:481-485 | a fresh node with its tower pre-pointed at the found successors, not linked anywhere |
| `SkipList.SkipList.Link` | crates/zerokv/src/skiplist.rs:503-512 | one level of the tower is linked between the remembered neighbours |
| `SkipList.SkipList.LinkTower` | crates/zerokv/src/skiplist.rs:487-513 | afterwards the node is on every level of its tower and nothing else has moved |
| `SkipList.SkipList.InsertNew` | crates/zerokv/src/skiplist.rs:477-516 | a new entry with its own node and cell, length counted |
| `SkipList.SkipList.Insert` | crates/zerokv/src/skiplist.rs:455-518 | for every tower height: the map is updated at the key, the answer says whether the key was new, and a new node is on exactly the levels up to that height |
| `SkipList.SkipList.MarkLevel` | crates/zerokv/src/skiplist.rs:588-594 | the loop ends with the mark of that level set and nothing else changed |
| `SkipList.SkipList.MarkAll` | crates/zerokv/src/skiplist.rs:584-602 | every level of the tower is marked, top-down, and nothing else changed |
| `SkipList.SkipList.Finish` | crates/zerokv/src/skiplist.rs:605-611 | the second search takes the node off every level, then it is counted and retired |
| `SkipList.SkipList.Remove` | crates/zerokv/src/skiplist.rs:574-618 | the map loses the key, the node leaves every level and is retired once; a miss changes nothing |
| `SkipList.SkipList.WalkLevel` | crates/zerokv/src/skiplist.rs:528-545 | lookup on one level skips marked nodes only |
| `SkipList.SkipList.Descend` | crates/zerokv/src/skiplist.rs:525-551 | the read-only descent ends at the first unmarked bottom node not below the key, in any well-formed state |
| `SkipList.SkipList.LookThenFind` | crates/zerokv/src/skiplist.rs:401-571 | with arbitrary nodes marked, `get` and `find` arrive at the same bottom node and `find` leaves the map alone |
| `SkipList.SkipList.Get` | crates/zerokv/src/skiplist.rs:523-571 | answers the map's value, in any well-formed state |
| `SkipList.SkipList.FreeNode` | crates/zerokv/src/skiplist.rs:283-298 | frees a live node and the live cell it owns, nothing else |
| `SkipList.SkipList.TearDown` | crates/zerokv/src/skiplist.rs:621-633 | the walk frees every linked node and its cell exactly once; only retired garbage is left |
| `SkipList.SkipList.Reclaim` | crates/zerokv/src/skiplist.rs:300-310 | freeing the retired garbage, each once, leaves nothing allocated |
| `SkipList.UpdateValid` | crates/zerokv/src/skiplist.rs:463-475 | swapping a cell keeps every node and cell with exactly one owner |
| `SkipList.InsertValid` | crates/zerokv/src/skiplist.rs:477-516 | linking a new tower keeps the list tidy and every node and cell with exactly one owner |
| `SkipList.RemoveValid` | crates/zerokv/src/skiplist.rs:584-611 | marks, second search and retire together remove the key, take the node off every level and hand it to one owner |
| `SkipList.LevelsAreSubsequences` | crates/zerokv/src/skiplist.rs:401-618 | level l is, in order, exactly the bottom nodes whose tower reaches l |
| `SkipList.Run` | crates/zerokv/src/skiplist.rs:455-618 | every sequence of operations with every choice of heights answers like a map, and `len` is its size |
| `Spsc.MaskedIndex` | crates/zerokv/src/spsc.rs:90-112 | masking a wrapped cursor gives the slot of the counter behind it, on either side of the wrap |
| `Spsc.WriteKeeps` | crates/zerokv/src/spsc.rs:90-93 | the producer writes only an empty slot, and the invariant stays |
| `Spsc.PublishKeeps` | crates/zerokv/src/spsc.rs:94-97 | publishing the new tail keeps the invariant |
| `Spsc.ReadKeeps` | crates/zerokv/src/spsc.rs:112-115 | the consumer reads exactly the oldest value, and the invariant stays |
| `Spsc.AdvanceKeeps` | crates/zerokv/src/spsc.rs:116-117 | publishing the new head keeps the invariant |
| `Spsc.StepKeepsInv` | crates/zerokv/src/spsc.rs:82-118 | every load, slot access and store of either end keeps the invariant |
| `Spsc.PoppedIsPrefix` | crates/zerokv/src/spsc.rs:82-118 | in every interleaving the popped values are a prefix of the pushed ones and at most the capacity lies between |
| `Spsc.RefusalsAreRight` | crates/zerokv/src/spsc.rs:84-111 | the full and empty checks on wrapped cursors answer exactly whether the ring is full or empty at that load |
| `Spsc.SlotsAreSafe` | crates/zerokv/src/spsc.rs:90-115 | the slot about to be written is empty, the slot about to be read is initialized with the oldest undelivered value |
| `Spsc.AtRest` | crates/zerokv/src/spsc.rs:137-150 | with both ends at rest the ring holds exactly the values pushed and not popped |
| `Spsc.OfferedIsPushed` | crates/zerokv/src/spsc.rs:82-98 | in every run the values offered, in order and without those refused at a full ring, are exactly the ones pushed and then the one under way |
| `Spsc.GrantedIsPopped` | crates/zerokv/src/spsc.rs:104-118 | every pop that does not find the ring empty delivers a value |
| `Spsc.NothingLost` | crates/zerokv/src/spsc.rs:82-118 | with both ends at rest, what was offered and not refused is what was popped and then what the slots hold |
| `Spsc.WaitFree` | crates/zerokv/src/spsc.rs:82-118 | a push ends within four own steps and a pop within four, whatever the other end does |
| `Spsc.Channel` | crates/zerokv/src/spsc.rs:61-77 | for any capacity and slot size, 0 included: an empty ring of the fewest slots that hold the capacity, a power of two from 2 on; no ring exactly if that number is not a word or the slots would pass the largest allocation |
| `Spsc.Ring.Push` | crates/zerokv/src/spsc.rs:82-98 | appends unless full, and says so |
| `Spsc.Ring.Pop` | crates/zerokv/src/spsc.rs:104-118 | takes the oldest value, or none exactly if empty |
| `Spsc.Ring.Drain` | crates/zerokv/src/spsc.rs:122-134 | delivers the first values in order, as many as there are up to the maximum |
| `Spsc.Ring.Drop` | crates/zerokv/src/spsc.rs:137-150 | drops exactly the queued values, in order, each once, and leaves no slot initialized |
| `Mesh.MovedCounts` | crates/zerokv/src/mesh.rs:155-171 | `sent` and `applied` keep counting exactly the puts taken and the puts applied |
| `Mesh.TakeKeeps` | crates/zerokv/src/mesh.rs:247-249 | taking the next item keeps the invariant |
| `Mesh.AnnounceKeeps` | crates/zerokv/src/mesh.rs:252-255 | announcing the end of phase 1 keeps the invariant |
| `Mesh.HoldKeeps` | crates/zerokv/src/mesh.rs:157-171 | applying locally, pushing to the owner, or pumping on a full queue keeps the invariant |
| `Mesh.PopKeeps` | crates/zerokv/src/mesh.rs:108-120 | popping and applying a command keeps the invariant, order per worker and owner included |
| `Mesh.CountKeeps` | crates/zerokv/src/mesh.rs:117-120 | counting an applied command keeps the invariant |
| `Mesh.StepKeepsInv` | crates/zerokv/src/mesh.rs:108-272 | every step keeps the invariant and never adds work |
| `Mesh.AlwaysInv` | crates/zerokv/src/mesh.rs:245-272 | the invariant holds in every state of every schedule of every workload |
| `Mesh.AppliedNeverAhead` | crates/zerokv/src/mesh.rs:155-171 | applied never exceeds sent |
| `Mesh.StopMeansApplied` | crates/zerokv/src/mesh.rs:257-272 | once a worker has decided to exit, every put of every worker has been applied, all queues are empty and no worker has an item left |
| `Mesh.FinalContents` | crates/zerokv/src/mesh.rs:108-171 | then each key is only in the shard `route` gives, the keys are exactly the submitted ones, and each value is the last put some worker made to that key |
| `Mesh.FinalItems` | crates/zerokv/src/mesh.rs:245-272 | in terms of the workload: the keys are those of the items the workers started with, each at its owner, with the value of the last item some worker had for it |
| `Mesh.SomebodyCan` | crates/zerokv/src/mesh.rs:155-171 | until all have exited some worker has a productive step ahead, even with full queues |
| `Mesh.NoDeadlock` | crates/zerokv/src/mesh.rs:155-171 | a state with a running worker names a worker such that in every schedule from that state its next 2n + 8 turns lower the work left |
| `Mesh.EverybodyExits` | crates/zerokv/src/mesh.rs:257-272 | as many fair rounds as there is work left make every worker exit |
| `Mesh.RunEnds` | crates/zerokv/src/mesh.rs:245-272 | the same for every run from the start |
| `ServiceSteps.HeadCommand` | crates/zerokv/src/mesh.rs:610-617 | a popped command is a forwarded Get of a key of this shard, from the worker whose inbox it was in |
| `ServiceSteps.PopKeeps` | crates/zerokv/src/mesh.rs:607-631 | serving a command keeps the invariant and is where a forwarded Get takes effect |
| `ServiceSteps.AnswerKeeps` | crates/zerokv/src/mesh.rs:618-625 | pushing a reply, or collecting replies while its queue is full, keeps the invariant |
| `ServiceSteps.HeadReply` | crates/zerokv/src/mesh.rs:634-645 | the token of a popped reply is waiting, for exactly the request the reply answers |
| `ServiceSteps.CollectKeeps` | crates/zerokv/src/mesh.rs:634-645 | collecting a reply keeps the invariant |
| `ServiceSteps.StoreKeeps` | crates/zerokv/src/mesh.rs:328-332 | storing the value of a completion keeps the invariant |
| `ServiceSteps.PublishKeeps` | crates/zerokv/src/mesh.rs:328-332 | raising the flag of a completion keeps the invariant |
| `ServiceSteps.DrainKeeps` | crates/zerokv/src/mesh.rs:394-405 | swapping out the ingress stack keeps every request in exactly one place |
| `ServiceSteps.ServeKeeps` | crates/zerokv/src/mesh.rs:653-684 | serving a request locally is its effect; forwarding it uses a token nothing waits on |
| `ServiceSteps.TokenIs` | crates/zerokv/src/mesh.rs:677-678 | below 2^48 the token is the worker's range plus its counter, so tokens never collide |
| `ServiceSteps.SendKeeps` | crates/zerokv/src/mesh.rs:685-689 | pushing a command, or pumping while its queue is full, keeps the invariant |
| `ServiceSteps.SubmitKeeps` | crates/zerokv/src/mesh.rs:527-557 | submitting a request keeps the invariant |
| `ServiceSteps.DrawKeeps` | crates/zerokv/src/mesh.rs:564-564 | so does a client that draws from the wrapping round-robin counter |
| `ServiceSteps.RoundRobinKeeps` | crates/zerokv/src/mesh.rs:565-565 | and its push to the worker it drew, whatever others have drawn and pushed in between |
| `ServiceSteps.TakeKeeps` | crates/zerokv/src/mesh.rs:339-351 | so does a client that sees the flag and takes the value |
| `ServiceSteps.StepKeepsInv` | crates/zerokv/src/mesh.rs:525-695 | every step of every client and worker keeps the invariant |
| `ServiceRuns.AlwaysInv` | crates/zerokv/src/mesh.rs:525-695 | the invariant holds in every state of every run |
| `ServiceRuns.Linearizable` | crates/zerokv/src/mesh.rs:525-695 | every returned put, get and get_round_robin took effect exactly once between submit and return, with the answer one map gives in the order of effects |
| `ServiceRuns.OneMap` | crates/zerokv/src/mesh.rs:607-695 | the effects form a legal history of one map, and the shards are that map: each key at its owner and nowhere else |
| `ServiceRuns.HistoryGrows` | crates/zerokv/src/mesh.rs:525-695 | a request keeps its place in the order of effects, and what is submitted later begins later |
| `ServiceRuns.RealTimeOrder` | crates/zerokv/src/mesh.rs:525-567 | a request that returned before another was submitted took effect before it |
| `ServiceRuns.PutsStayHome` | crates/zerokv/src/mesh.rs:656-667 | the branch that forwards a Put is never taken |
| `ServiceRuns.ReplyMatches` | crates/zerokv/src/mesh.rs:634-645 | a reply in flight finds its token waiting at its destination, for its request, and carries the value that request was answered with |
| `ServiceCalls.AsCalled` | crates/zerokv/src/mesh.rs:525-567 | the request a call makes is for the operation of that call in every later state, and so is its effect once it has taken place |
| `ServiceCalls.MadeByCall` | crates/zerokv/src/mesh.rs:525-567 | and every request was made by a call |
| `ServiceCalls.LogIsCalls` | crates/zerokv/src/mesh.rs:607-695 | so every effect is that of a call, with the operation the call asked for |
| `ServiceCalls.GetReturnsThePut` | crates/zerokv/src/mesh.rs:525-567 | a get called after a put of its key has returned, while no other put of the key has been called, returns that put's value |
| `ServiceCalls.DealtInTurn` | crates/zerokv/src/mesh.rs:564-564 | the round-robin counter is the number of draws, modulo 2^64 |
| `ServiceProgress.Nearer` | crates/zerokv/src/mesh.rs:607-695 | each own step of a worker that can advance a request advances one or comes nearer to it |
| `ServiceProgress.SomebodyCan` | crates/zerokv/src/mesh.rs:607-695 | with an unanswered request some worker can advance one, whatever queues are full |
| `ServiceProgress.NoDeadlock` | crates/zerokv/src/mesh.rs:607-695 | for any queue capacity, a state with an unanswered request names a worker such that in every schedule without submissions from that state its next 2n + 4 turns advance a request |
| `ServiceProgress.EveryRequestAnswered` | crates/zerokv/src/mesh.rs:607-695 | as many fair rounds as there is work left answer every request |
| `ServiceProgress.RunAnswersAll` | crates/zerokv/src/mesh.rs:525-695 | the same from any point of any run after which nothing is submitted |
| `ClientWait.StepKeepsInv` | crates/zerokv/src/mesh.rs:328-351 | every step of the waiting client and of `fulfill` keeps the invariant, and all but spurious ones use up a finite amount |
| `ClientWait.GetsTheValue` | crates/zerokv/src/mesh.rs:328-351 | the client gets exactly the value stored, and once the flag is up it sleeps only with an unpark coming |
| `ClientWait.Returns` | crates/zerokv/src/mesh.rs:339-351 | apart from spurious wakeups the wait takes finitely many steps and never gets stuck |
| `ClientWait.SpinsFirst` | crates/zerokv/src/mesh.rs:339-351 | a client parks only after it has looked at the flag `SPIN` times |
| `Wal.SortedSorts` | crates/zerokv/src/group_commit.rs:225-226 | sorting the batch yields a permutation in the order of sequence numbers |
| `Wal.SwapTakesAll` | crates/zerokv/src/group_commit.rs:204-226 | one swap takes everything pushed so far, and the batch joins the log in submission order |
| `Wal.AppendKeeps` | crates/zerokv/src/group_commit.rs:135-143 | taking a sequence number keeps the invariant |
| `Wal.PublishKeeps` | crates/zerokv/src/group_commit.rs:145-159 | pushing the record keeps the invariant |
| `Wal.DropKeeps` | crates/zerokv/src/group_commit.rs:171-175 | closing the log keeps the invariant |
| `Wal.SwapKeeps` | crates/zerokv/src/group_commit.rs:204-233 | taking a batch keeps the invariant |
| `Wal.WriteKeeps` | crates/zerokv/src/group_commit.rs:235-236 | every outcome of every write keeps the invariant, an error that abandons the batch included |
| `Wal.SignalKeeps` | crates/zerokv/src/group_commit.rs:238-241 | signalling a record keeps the invariant |
| `Wal.StepKeepsInv` | crates/zerokv/src/group_commit.rs:135-247 | every step of every writer and of the batcher keeps the invariant |
| `Wal.FileIsLog` | crates/zerokv/src/group_commit.rs:204-241 | until a write fails the file is its old bytes, then each drained record once, in log order, without gaps, then a part of the next |
| `Wal.DoneMeansWritten` | crates/zerokv/src/group_commit.rs:238-241 | until a write fails no record is signalled before its bytes are in the file at its place |
| `WalDurable.StoredIsInFile` | crates/zerokv/src/group_commit.rs:204-241 | in every run, failed writes included, a record counted as stored has its bytes in the file, behind the old ones and those of the records before it in the log |
| `WalDurable.FailedMeans` | crates/zerokv/src/group_commit.rs:235-236 | the failure flag is up exactly if some write of a batch has returned an error or zero |
| `WalDurable.WrittenIffNoFailure` | crates/zerokv/src/group_commit.rs:235-241 | between batches every completed record is stored exactly if no write has returned an error or zero |
| `WalDurable.TakenSoon` | crates/zerokv/src/group_commit.rs:204-226 | a record pushed is in the log or done after as many batcher steps as the current batch takes |
| `WalDurable.PublishedIsSignalled` | crates/zerokv/src/group_commit.rs:145-241 | while the log runs, a published record is signalled within two batches: the one under way and the next |
| `Wal.FailureLosesRecord` | crates/zerokv/src/group_commit.rs:235-241 | a run in which one failing write leaves a record signalled as durable and the file empty |
| `Wal.AppendOrder` | crates/zerokv/src/group_commit.rs:135-163 | a record whose append had pushed before another began is earlier in the log |
| `Wal.ExitFlushesAll` | crates/zerokv/src/group_commit.rs:171-246 | when the batcher has exited every record ever appended is in the log and signalled, and unless a write failed in the file |
| `Wal.BatcherMoves` | crates/zerokv/src/group_commit.rs:204-247 | until the batcher has exited it has a step, for every possible outcome of a write |
| `Wal.DropTerminates` | crates/zerokv/src/group_commit.rs:171-246 | after drop the batcher exits within the number of steps its backlog takes, and until then it always has one |
| `WalAppends.AsAppended` | crates/zerokv/src/group_commit.rs:135-143 | the record an append makes has the bytes it was given, in every later state |
| `WalAppends.RecordsAreAppends` | crates/zerokv/src/group_commit.rs:135-143 | the records are exactly the appends, in the order they began |
| `WalAppends.FileIsAppends` | crates/zerokv/src/group_commit.rs:204-241 | until a write fails the file is its bytes at the start, then the bytes of whole appends, each at most once, then the first bytes of one more |
| `WalAppends.ExitHoldsAppends` | crates/zerokv/src/group_commit.rs:171-246 | after exit without a failed write the file is its bytes at the start and then the bytes of every append, each exactly once |
| `WalAppends.DoneIsDurable` | crates/zerokv/src/group_commit.rs:238-241 | an append told that it is done has its bytes in the file, unless a write failed |
| `WalAppends.LaterAppendIsLater` | crates/zerokv/src/group_commit.rs:135-163 | an append that begins after another has published comes after it in the file |
| `WalAppends.DropEnds` | crates/zerokv/src/group_commit.rs:171-246 | after a drop no append begins, and the batcher exits within the steps its backlog takes |
| `Executor.FetchKeeps` | crates/zerokv/src/executor.rs:174-186 | popping, stopping or going to sleep under the lock keeps the invariant |
| `Executor.TakeKeeps` | crates/zerokv/src/executor.rs:187-199 | taking the future out of its slot, or ignoring a wake of a finished task, keeps the invariant |
| `Executor.PollKeeps` | crates/zerokv/src/executor.rs:188-196 | the first look at the flag, or the completion of what is polled, keeps the invariant |
| `Executor.RegisterKeeps` | crates/zerokv/src/group_commit.rs:75-77 | registering the waker keeps the invariant |
| `Executor.RecheckKeeps` | crates/zerokv/src/group_commit.rs:78-82 | the second look, and going back to the slot as pending, keeps the invariant |
| `Executor.SignalKeeps` | crates/zerokv/src/group_commit.rs:47-52 | flag, waker, push and notify, each a step, keep the invariant |
| `Executor.SpawnKeeps` | crates/zerokv/src/executor.rs:159-166 | spawning before or within `run` keeps the invariant |
| `Executor.AnnounceKeeps` | crates/zerokv/src/executor.rs:164-164 | so does the count of a spawn from another thread |
| `Executor.ArriveKeeps` | crates/zerokv/src/executor.rs:165-165 | and its push, which notifies nobody |
| `Executor.StepKeepsInv` | crates/zerokv/src/executor.rs:128-201 | every step of runner, signallers and spawning threads keeps the invariant |
| `Executor.NoLostWakeup` | crates/zerokv/src/executor.rs:168-186 | while the runner sleeps every unfinished task is queued with a notification coming, or still to be queued, or its waker is registered and still to be taken, or is being fired; a queued one lacks the notification only if another thread queued a task in the runner's sleep |
| `Executor.ReturnMeansAllDone` | crates/zerokv/src/executor.rs:180-182 | `run` returns only when every spawned task is finished and every record a task was spawned with is done |
| `Executor.ResolvedMeansDone` | crates/zerokv/src/group_commit.rs:70-82 | a record a task was spawned with and no longer awaits is done: a future resolves only once its flag is up |
| `Executor.FirstComeFirstServed` | crates/zerokv/src/executor.rs:128-186 | tasks are polled in the order in which they became ready, each as often as it did |
| `Executor.FinishedForGood` | crates/zerokv/src/executor.rs:187-199 | a completed future is never polled again |
| `Executor.EveryStepCounts` | crates/zerokv/src/executor.rs:172-201 | every step but a spurious wakeup or a spawn lowers a measure |
| `Executor.SomethingHappens` | crates/zerokv/src/executor.rs:172-201 | until `run` has returned, or sleeps with nobody left to notify it, such a step is possible |
| `Executor.GetsLost` | crates/zerokv/src/executor.rs:176-184 | it comes to that exactly when the runner looks for a task while every unfinished one has been counted by another thread and not queued yet, and no signaller will notify |
| `Executor.LostForGood` | crates/zerokv/src/executor.rs:176-184 | and then it sleeps for ever, spurious wakeups apart |
| `Executor.LostWakeup` | crates/zerokv/src/executor.rs:159-186 | a run in which that happens, with one task that awaits nothing |
| `Executor.NeverLostAlone` | crates/zerokv/src/executor.rs:159-186 | without spawns from other threads it does not happen |
| `Executor.RunEnds` | crates/zerokv/src/executor.rs:172-201 | so without further spawns and spurious wakeups a run is finite, and one that cannot go on has returned with every task completed, or is lost in that way |
| `BlockOn.StepKeepsInv` | crates/zerokv/src/executor.rs:80-100 | every step of the driving thread and of the wake keeps the invariant, and all but spurious ones lower a measure |
| `BlockOn.NeverForgotten` | crates/zerokv/src/executor.rs:89-99 | a blocked thread has its waker still to be taken or its token still to come, and only a ready future is returned |
| `BlockOn.Returns` | crates/zerokv/src/executor.rs:80-100 | apart from spurious returns and stray tokens `block_on` takes finitely many steps and never gets stuck |
| `Arena.TryMeans` | crates/zerokv/src/arena.rs:72-82 | the rounded address is the first aligned one behind the cursor, and an attempt is refused exactly if padding and size do not fit |
| `Arena.StepKeepsInv` | crates/zerokv/src/arena.rs:65-102 | every load and CAS of every thread, spurious failures included, keeps the invariant |
| `Arena.CursorIsSum` | crates/zerokv/src/arena.rs:65-102 | in every run the cursor is the sum of all sizes and paddings and never passes the capacity |
| `Arena.RegionIsSafe` | crates/zerokv/src/arena.rs:65-102 | in every run every reservation is aligned as asked and inside the arena, behind the cursor |
| `Arena.RegionsAreDisjoint` | crates/zerokv/src/arena.rs:65-102 | and any two are disjoint |
| `Arena.GrantIsReservation` | crates/zerokv/src/arena.rs:92-98 | a returned address is that of a reservation of the asked size and alignment inside the arena, no other thread's; the base for size 0 |
| `Arena.GrantsAreDisjoint` | crates/zerokv/src/arena.rs:92-98 | so the bytes granted to two threads never overlap |
| `Arena.OnlyGrantsMove` | crates/zerokv/src/arena.rs:80-100 | an attempt is refused exactly if padding and size do not fit, and granted exactly if they do, the cursor is the one loaded and the CAS not spurious; a refused or failed one changes nothing, a granted one adds one reservation of the size and alignment asked for and grants that |
| `Arena.ServedAsAsked` | crates/zerokv/src/arena.rs:65-70 | in every run a thread is served for the size and alignment it asked for last |
| `Arena.RetryMeansGrant` | crates/zerokv/src/arena.rs:86-100 | an attempt is repeated only because another thread was granted memory since the cursor was loaded, spurious failures apart |
| `Arena.AloneAnswered` | crates/zerokv/src/arena.rs:65-102 | undisturbed, a request is answered at its second step, and refused exactly if it does not fit behind the cursor |
| `Arena.Arena.constructor` | crates/zerokv/src/arena.rs:43-59 | an empty arena of the given capacity |
| `Arena.Arena.AllocRaw` | crates/zerokv/src/arena.rs:65-102 | alone, the first aligned fitting region behind the cursor, or none exactly if no aligned region fits |
| `Arena.Arena.PushBytes` | crates/zerokv/src/arena.rs:108-116 | the bytes are at the old cursor, every other byte is untouched, refusal exactly when they do not fit |
| `RegBuf.PageRoundedMeans` | crates/zerokv/src/regbuf.rs:67-69 | the buffer length is the next multiple of the page size, at least one page |
| `RegBuf.Pool.constructor` | crates/zerokv/src/regbuf.rs:66-89 | all indices free, each once |
| `RegBuf.Pool.Acquire` | crates/zerokv/src/regbuf.rs:93-105 | a free index with its region, none exactly if all are in flight; free and in-flight indices stay a partition |
| `RegBuf.Pool.Release` | crates/zerokv/src/regbuf.rs:107-109 | the index is free again and no other changes |
| `RegBuf.BuffersApart` | crates/zerokv/src/regbuf.rs:93-98 | regions of different indices share no byte and lie in the slab |
| `RegBuf.WriteAllAt` | crates/zerokv/src/regbuf.rs:257-282 | success means all bytes are in place whatever the short writes, an error means a proper prefix is; success exactly if every call made progress |
| `RegBuf.WriteVectored` | crates/zerokv/src/regbuf.rs:236-253 | success means all buffers are in place one after the other, an error means a proper prefix of that |

## Left out

- Weak memory orderings, fences, prefetching, cache-line padding, core pinning and backoff: steps are sequentially consistent.
- Value cells as objects of their own in the concurrent list, and the retirement of a displaced one: values are part of their node there; cells and their owners are in the one-thread model.
- Reuse of addresses by the allocator in the list and stacks: names of nodes are never reused.
- Nested guards on one thread, which share the slot, and the tick that decides how often a guard drop collects: collection may happen at any time.
- `MeshService::shutdown` with operations outstanding and the `stop` branch of the service loop: runs are before `stop`.
- The Get branch of the closed workload's `pump` and its `inflight` map: nobody sends a Get there; its twin is in the service.
- Wrap-around of the mesh and sequence counters at 2^64, and the advisory `pending_count` with the batching window it tunes: the batcher may swap at any time.
- Infinite runs, but for the skiplist: liveness is stated as a bound on finite runs under fair rounds or without spurious wakeups.
- Executor.StepKeepsInv: completions are signalled by one signaller each, at any time, instead of by one batcher in order; spawns after `run` has returned wait for the next `run` and are not taken.
- SkipList.SkipList.Insert: the retry after a failed CAS cannot happen with one thread and is not taken in the model; `random_level` is the parameter `topLevel`.
- SkipList.SkipList.constructor: the float computation of `max_level` from a capacity hint is not modelled; any height below the maximum is allowed.
- Spsc.Channel: a capacity above 2^63 in a build without overflow checks, where rounding up gives 0 and the ring has no slots; running out of memory; `slot` is a parameter in place of the size of the type.
- Arena.Arena.constructor: the address of the allocation is a parameter; the null check and the layout are not modelled.
- RegBuf.WriteAllAt: what each system call does is a parameter, and an erroring call is taken to write nothing.
- `read_fixed`, `AlignedBuf`, `DirectIoRead`, raw-waker reference counts, `Arena::reset`: allocation and calling-convention plumbing, or a single slice.
- `store.rs`, `mmap_log.rs`, `zerocopy.rs`, the derive macro, benches and `main.rs`: file handling, layout facts checked by the Rust compiler, and drivers.
