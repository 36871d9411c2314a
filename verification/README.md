# A model of Graphite's hard parts

Graphite simulates a multicore processor on a cluster of machines. This project
models, in Dafny, the parts of it whose correctness cannot be read off one
function, and proves what they are for.

- **Ring barrier** (`RingBarrier.dfy`): the processes of a simulation pass a token
  twice round a ring. A state is the program counter and the sent, delivered and
  consumed tokens of every process; a step is one send, one delivery or one wait
  that goes through. The processes may be in different rounds and tokens of two
  rounds may sit at one semaphore.
- **Semaphore** (`Semaphore.dfy`): a counting semaphore over a futex word. One step
  is one access to the lock, the counters or the futex; sleepers may also wake up
  for no reason.
- **Framing** (`Framing.dfy`): packets written onto a byte stream and split again,
  whatever the chunks in which the operating system hands the bytes out.
- **Interval tree** (`AvlTree.dfy`, `IntervalSearch.dfy`, `IntervalTree.dfy`): an AVL
  tree with parent pointers and stored heights. `IntervalTree` is the pointer code,
  proved against the tree functions of `AvlTree`, whose meaning is given by sorted
  lists; `IntervalSearch` is about the pruned search.
- **Mesh network** (`Mesh.dfy`, `Network.dfy`): XY routing, the broadcast tree and the
  worklist that follows hops. `Mesh` says which places receive a packet; `Network`
  is the code that makes and follows the hops, with the delays that the router and
  link models add on the way.
- **Process map** (`ProcessMap.dfy`): which process simulates which tile, forth and back.
- **Scheduler** (`Scheduler.dfy`): the run queues of the master, and the map from
  thread ids to slots.
- **Synchronisation server** (`Sync*.dfy`): mutexes, condition variables, barriers,
  futexes and joins as the MCP serves them. `SyncModel` has the state and the
  invariant, `SyncHandlers` what a request does, `SyncProofs`, `SyncOwners` and
  `SyncRuns` that requests keep the invariants, `SyncTheorems`, `SyncReplies`,
  `SyncBarriers`, `SyncFutexes` and `SyncEffects` what follows over whole runs, `SyncWitnesses` runs
  that show what is not kept, and `SyncServer` the handlers as code that updates the
  MCP's tables.

`dafny verify dfyconfig.toml` checks the whole project.

## What the source does not keep

Some properties hold only under a condition. Each has a lemma with an input that
shows the failure, and a lemma that says exactly when the property holds.

- `SimCond::signal` erases the first waiter from a vector. Erasing moves the other
  waiters up by assignment, and the assignment operator of `StableIterator`
  (common/misc/stable_iterator.h:19-22) assigns nothing: the cores move, their
  mutexes do not. The remaining waiters keep their mutexes if and only if all
  waiters had the same one (`SyncOwners.SignalKeepsMutexes`, `SyncTheorems.SignalKeepsOwn`);
  otherwise two threads can come to hold one mutex (`SyncWitnesses.TwoHolders`).
  Mutual exclusion is proved for all runs in which no signal meets waiters with
  different mutexes; such waiters may wait, be broadcast to, or be signalled once
  only waiters of one mutex are left.
- `SimBarrier::wait` has one flag for each waiter and indexes the flags by tile. The
  release stays within them if and only if the generation is cores 0 to count - 1
  (`SyncBarriers.BarrierGeneration`); otherwise it reads and writes beyond the vector
  (`SyncWitnesses.BeyondFlags`). What the state functions say of such a release is
  what it is meant to do; the code in `SyncServer` asks for the condition.
- The prune of `searchTree` takes intervals to be strictly separated. When stored
  intervals may touch, the search is first-fit if and only if the entry wanted is
  not to the left of an interval that begins where the request ends
  (`IntervalSearch.SearchTouching`).
- `futexCmpRequeue` with one address twice turns the queue round, and counts waiters
  again when they come round. Its count is the number of waiters if and only if the
  addresses differ or the queue is long enough (`SyncFutexes.RequeueCountExact`).
- A migration of a thread whose start request is under way leaves the run queue
  without the thread that will report its start. Migrations keep the run queues in
  order if and only if they do not take such a thread, which is at the front of its
  queue and INITIALIZING (`Scheduler.MigrateKeepsRun`, `Scheduler.MigrateWhileStarting`).
- `Semaphore`: while somebody sleeps, as many should be awake in the loop as the count
  says. Between the increment of a `signal` or `broadcast` and its FUTEX_WAKE there may
  be one less, whether the sleeper came first (`Semaphore.WakeUpIsDue`) or falls asleep
  in between (`Semaphore.SleepsMidPost`), and never more than one
  (`Semaphore.NoLostWakeup`). `Semaphore.BoundExact` says for every step whether it
  holds afterwards, and `Semaphore.FallsAsleep` when a thread falls asleep with
  something to take.

Smaller things the model keeps as they are: `insert` counts the size up before it
finds a key twice and stops; the outer loop of `masterSpawnThread` goes on after a
hit, so that the highest slot number with a free tile wins; idle slots keep the
thread id of their last thread; in LITE mode the last application tile is entered
in the map as if it were a thread spawner; the delay of the injection router
without load is not added to a packet's time.

## Model

| member | source | states |
|---|---|---|
| `RingBarrier.RingIndices` | common/transport/socktransport.cc:303 | the neighbours on the ring are those of the modular arithmetic, and the token of process i is expected from process i - 1 (line 198) |
| `RingBarrier.StepKeepsInv` | common/transport/socktransport.cc:287-317 | every step of every process keeps the relation between entries, exits, sent, delivered and consumed tokens of neighbours |
| `RingBarrier.LeftMeansAllEntered` | common/transport/socktransport.cc:287-317 | whoever has left its k-th barrier, everybody has entered its k-th |
| `RingBarrier.Safety` | common/transport/socktransport.cc:287-317 | in every state of every run of any number of processes, nobody has left more barriers than any other process has entered |
| `RingBarrier.Conservation` | common/transport/socktransport.cc:303-314 | k completed rounds of n processes have sent and consumed (2n - 1)k tokens and left none on any edge |
| `RingBarrier.NoDeadlock` | common/transport/socktransport.cc:306-314 | once all have entered round k, some process can go on inside a barrier until all have left it |
| `RingBarrier.WorkDecreases` | common/transport/socktransport.cc:306-314 | every step, of whatever process and round, uses up a bounded amount of work while somebody is in round k |
| `RingBarrier.RoundEnds` | common/transport/socktransport.cc:306-314 | however a run goes on after all have entered round k, it is over after a bounded number of steps |
| `Semaphore.StepKeepsInv` | common/misc/semaphore.cc:19-67 | every access by any thread, and every spurious wake-up, keeps lock, counters, word and sleepers in their relation |
| `Semaphore.CountConserved` | common/misc/semaphore.cc:19-67 | in every run the count is the initial count plus posts minus completed waits, and not negative |
| `Semaphore.NoLostWakeup` | common/misc/semaphore.cc:23-35 | in every state of every run, while a waiter sleeps at least as many others are awake in the loop as the count says, or one less if a post stands between raising the count and its FUTEX_WAKE |
| `Semaphore.WakeUpIsDue` | common/misc/semaphore.cc:45-49 | a run of two threads that ends with one asleep, none awake and a count of one: asleep first, then the signal |
| `Semaphore.SleepsMidPost` | common/misc/semaphore.cc:45-48 | a run of two threads in the other order: the count is raised first, and the waiter falls asleep before the word is set |
| `Semaphore.BoundExact` | common/misc/semaphore.cc:19-67 | for every state and step: a FUTEX_WAKE makes the threads awake enough for the count; otherwise they stop being enough exactly when they are just enough and a post raises the count over a sleeper or a waiter falls asleep on a word of 0, and become enough again exactly when a sleeper wakes up for no reason |
| `Semaphore.BoundOverRuns` | common/misc/semaphore.cc:19-67 | the same for every step of every run, which begins with enough |
| `Semaphore.FallsAsleep` | common/misc/semaphore.cc:26-30 | in every run, a thread at FUTEX_WAIT with something to take falls asleep if and only if a post stands between raising the count and setting the word, and the word is 0 |
| `Semaphore.PostedKeepsMoving` | common/misc/semaphore.cc:19-67 | with a sleeper and something to take, a thread inside an operation can always move |
| `Semaphore.MoveWorks` | common/misc/semaphore.cc:19-67 | every move of a thread inside an operation uses up work, also one that makes another pass of the loop or wakes others |
| `Semaphore.ComesToRest` | common/misc/semaphore.cc:19-67 | from any state of any run, without new calls and spurious wake-ups the threads come to rest within a bounded number of moves, all outside or asleep, and nobody asleep while there is something to take |
| `Semaphore.LockExcludes` | common/misc/semaphore.cc:19-67 | two threads are never both between acquire and release |
| `Semaphore.BroadcastWakesAll` | common/misc/semaphore.cc:55-67 | in every run, when a thread that called broadcast is about to release the lock, nobody is asleep |
| `Semaphore.SignalWakesOne` | common/misc/semaphore.cc:41-53 | in every run, the FUTEX_WAKE of a signal wakes one sleeper if there is any, and moves nobody else |
| `Semaphore.CallCounts` | common/misc/semaphore.cc:19-67 | in every run, a wait that has returned has itself lowered the count by one, a signal or broadcast has raised it by one, whatever others did meanwhile |
| `Framing.WordRoundTrip` | common/transport/socktransport.cc:439 | the length field is read back as it was written |
| `Framing.TagRoundTrip` | common/transport/socktransport.cc:440 | the tag field is read back as the signed number that was written |
| `Framing.FirstFrame` | common/transport/socktransport.cc:436-441 | the first frame of a stream of packets gives back length, tag and data, and what follows is the stream of the others |
| `Framing.FramesAppend` | common/transport/socktransport.cc:447-449 | sending one packet more appends its frame |
| `Framing.ListKeepsOrder` | common/transport/socktransport.cc:218-234 | in every buffer list, the packets of each source are that source's packets for the list, in the order sent |
| `Framing.ReceivedInOrder` | common/transport/socktransport.cc:351-385 | what k receptions from a list get is, for each source, its packets for the list from the first on, in the order sent |
| `Framing.SockTransport.constructor` | common/transport/socktransport.cc:116-130 | lists, streams and counts begin empty |
| `Framing.SockTransport.OsRecv` | common/transport/socktransport.cc:582 | the operating system hands out any non-empty part of what waits, at most what was asked for, or nothing |
| `Framing.SockTransport.Recv` | common/transport/socktransport.cc:576-617 | all of the bytes asked for and no more, in order, or none at all if the caller does not wait |
| `Framing.SockTransport.InsertInBufferList` | common/transport/socktransport.cc:218-234 | the packet goes to the end of the list of its tag, the global tag meaning the last list, and the list's semaphore is signalled; signals and receivers that have used one are as many as the buffers in the list |
| `Framing.SockTransport.AwaitBuffer` | common/transport/socktransport.cc:355-358 | a receiver that has waited for the semaphore has a claim on one buffer of its list |
| `Framing.SockTransport.TakeBuffer` | common/transport/socktransport.cc:360-384 | whatever happened since, the list is not empty, as line 364 asserts, and the buffer is the oldest delivered to it that was not taken |
| `Framing.SockTransport.ReceivePacket` | common/transport/socktransport.cc:166-172 | tag and data are those of the oldest packet of the stream, which then begins with the next frame |
| `Framing.SockTransport.Dispatch` | common/transport/socktransport.cc:185-213 | every kind of packet ends up in its place: buffer list, barrier semaphore or quit |
| `Framing.SockTransport.DrainOne` | common/transport/socktransport.cc:153-214 | one turn takes the oldest packet of a process, whole, or leaves everything as it is |
| `Framing.SockTransport.DrainStream` | common/transport/socktransport.cc:153-214 | packets of a process are taken in order until none is there or the quit message came |
| `Framing.SockTransport.UpdateBufferLists` | common/transport/socktransport.cc:149-216 | for every process, what was delivered followed by what is still on the stream is what was sent; unless a poll missed data or the quit message came, all is delivered |
| `Framing.SockTransport.Send` | common/transport/socktransport.cc:401-455 | a packet for the own process is delivered to its list at once, any other one is a whole frame at the end of the stream to its process |
| `Framing.SockTransport.Arrive` | common/transport/socktransport.cc:434-449 | a frame from a peer, or the quit message, is the last of its stream |
| `AvlTree.FixFlat` | common/misc/interval_tree.cc:109-207 | no rotation moves an entry out of its place in the order |
| `AvlTree.FixRestores` | common/misc/interval_tree.cc:147-227 | a node whose children are AVL trees of heights at most two apart is repaired, and its height changes by at most one |
| `AvlTree.RebalanceFlat` | common/misc/interval_tree.cc:209-242 | rebalancing on the way up keeps all entries in order |
| `AvlTree.RebalanceRestores` | common/misc/interval_tree.cc:209-242 | stopping when the height equals the stale one leaves the whole tree an AVL tree with exact heights |
| `AvlTree.InsertSpec` | common/misc/interval_tree.cc:273-309 | insertion fails exactly on a key that is there; otherwise the entries are the sorted insertion and the tree is an AVL tree |
| `AvlTree.DetachSpec` | common/misc/interval_tree.cc:322-340 | taking out a node with at most one child leaves an AVL tree of the other entries |
| `AvlTree.RemoveSpec` | common/misc/interval_tree.cc:319-356 | removal leaves an AVL tree of exactly the other items, and exactly one object leaves it |
| `IntervalSearch.SearchIsFirstFit` | common/misc/interval_tree.cc:365-394 | for strictly separated intervals the pruned search returns the first entry in key order that contains the request or starts later and is long enough, and nothing exactly if there is none |
| `IntervalSearch.SearchTouching` | common/misc/interval_tree.cc:377-383 | for stored intervals and requests that may touch and may be empty, the search is first-fit if and only if the entry is not hidden behind an interval that begins where the request ends |
| `IntervalSearch.TouchingDefeatsPrune` | common/misc/interval_tree.cc:377-383 | two touching intervals and a request for which the search misses the first fit |
| `IntervalTree.IntervalTree.constructor` | common/misc/interval_tree.cc:40-44 | a tree of one node |
| `IntervalTree.IntervalTree.UpdateChildPointer` | common/misc/interval_tree.cc:50-78 | the child hangs on the side given, or on the side its key says |
| `IntervalTree.IntervalTree.UpdateParentPointer` | common/misc/interval_tree.cc:80-87 | parent link and root, for a missing node too |
| `IntervalTree.IntervalTree.PerformRotation` | common/misc/interval_tree.cc:109-145 | the pointer code leaves the links, heights and root of the rotated tree |
| `IntervalTree.IntervalTree.BalanceHeight` | common/misc/interval_tree.cc:147-207 | single or double rotation as the heights demand, and the new root of the subtree |
| `IntervalTree.IntervalTree.RebalanceAVLTree` | common/misc/interval_tree.cc:209-242 | the links, heights and root are those of the rebalanced tree |
| `IntervalTree.IntervalTree.Swap` | common/misc/interval_tree.cc:244-254 | key and interval of two nodes change places and no link does |
| `IntervalTree.IntervalTree.FindMinKeyNode` | common/misc/interval_tree.cc:256-263 | the leftmost node of a subtree |
| `IntervalTree.IntervalTree.InsertInTree` | common/misc/interval_tree.cc:273-309 | the links are those of the tree after insertion, or unchanged if the key is there |
| `IntervalTree.IntervalTree.RemoveFromTree` | common/misc/interval_tree.cc:319-356 | the links are those of the tree after removal, and the object returned carries the removed key and interval |
| `IntervalTree.IntervalTree.Insert` | common/misc/interval_tree.cc:265-271 | the tree stays valid (order, exact heights, balance, links, size) and its entries are the sorted insertion; it fails exactly on a key that is there |
| `IntervalTree.IntervalTree.Remove` | common/misc/interval_tree.cc:311-317 | the tree stays valid, the other items stay in order, and the object that leaves carries exactly the removed key and interval |
| `IntervalTree.IntervalTree.SearchTree` | common/misc/interval_tree.cc:365-394 | the node that the search on the abstract tree finds |
| `IntervalTree.IntervalTree.Search` | common/misc/interval_tree.cc:358-363 | the first fit in key order, or null exactly if there is none |
| `Mesh.PositionOfTile` | common/network/models/network_model_emesh_hop_by_hop.cc:265-279 | the position of the tile at a position is that position |
| `Mesh.TileOfPosition` | common/network/models/network_model_emesh_hop_by_hop.cc:265-279 | the tile at the position of an application tile is that tile |
| `Mesh.RouteDescends` | common/network/models/network_model_emesh_hop_by_hop.cc:144-263 | every hop stays on the mesh and strictly lowers a bounded rank, so that routes end |
| `Mesh.TreeCovers` | common/network/models/network_model_emesh_hop_by_hop.cc:162-220 | from every tile the broadcast reaches each tile below it exactly once, at a depth equal to its distance from the sender, and nothing else |
| `Mesh.UnicastArrives` | common/network/models/network_model_emesh_hop_by_hop.cc:222-255 | from every tile XY routing crosses as many links as the receiver is away and ends there, once |
| `Mesh.UnicastReaches` | common/network/network_model.cc:402-457 | a packet for one tile is received there once, corner cases included |
| `Mesh.BroadcastReaches` | common/network/network_model.cc:402-457 | a broadcast, tree and corner cases together, is received exactly once at every application and system tile |
| `Mesh.FanOutReaches` | common/network/network.cc:250-259 | one packet for each tile is received exactly once at each tile |
| `Mesh.BroadcastEquivalence` | common/network/network.cc:250-265 | both ways of broadcasting deliver the same multiset of packets |
| `Network.MakeHop` | common/network/network_model.cc:477-484 | a hop is later by both delays of the hop, and each of its delay sums is greater by its own |
| `Network.MaxLinkIsMax` | common/network/models/network_model_emesh_hop_by_hop.cc:190-204 | the delay taken for the links of a broadcast is that of the slowest valid one |
| `Network.TraceSums` | common/network/network_model.cc:477-484 | along any journey of hops the delays of a packet are the sums of what the router and link models said of it at each place, and its time is later by both |
| `Network.RowThenColumn` | common/network/models/network_model_emesh_hop_by_hop.cc:222-241 | on every journey, a packet for one tile is in the row of its sender or in the column of its receiver: it goes along x first and turns once |
| `Network.RouteBroadcast` | common/network/models/network_model_emesh_hop_by_hop.cc:162-220 | building the list with invalid tiles and erasing them gives exactly the hops of the tree, each later by the router and the slowest link |
| `Network.HopsTo` | common/network/models/network_model_emesh_hop_by_hop.cc:186-219 | one hop for each valid destination, in order, each later by the router and the slowest link to any of them |
| `Network.RouteUnicast` | common/network/models/network_model_emesh_hop_by_hop.cc:222-255 | the one hop of XY routing, later by the router and the link taken |
| `Network.ProcessCornerCases` | common/network/network_model.cc:402-457 | the direct hops of the corner cases, without delay, and whether the mesh still has to carry the packet |
| `Network.RoutePacket` | common/network/network_model.cc:80-109 | the hops of a packet at its place are those of the route, each with the delays of the models at that place; the injection port adds its contention only |
| `Network.ForwardPacket` | common/network/network.cc:176-222 | the worklist ends; what is sent is received where the packet would be, and has come there by hops of the route with their delays; with the shortcut all hops have been followed |
| `Network.ProcessReceivedPacket` | common/network/network_model.cc:111-143 | the number of flits is added to the time and to the delay without load, or nothing if the packet is not modelled |
| `Network.Deliver` | common/network/network.cc:99-174 | in whatever order packets are pulled, all are received or forwarded until none is in flight; the receptions are those of the packets sent, and each has the delays of its journey |
| `Network.SendToEach` | common/network/network.cc:250-259 | the fan-out is received once at every tile, each packet with the delays of its own journey |
| `Network.NetSend` | common/network/network.cc:229-268 | a broadcast by tree or fan-out, with or without shortcut, is received once at every tile, any other packet once at its receiver; each crossed as many links as its tile is away; for each there is a journey of hops from the sender, and its two delays are the sums of the delays of the models along it, serialization included where it applies, and its time is the injection time plus both |
| `ProcessMap.Isqrt` | common/network/models/network_model_emesh_hop_by_hop.cc:374 | the rounded square root |
| `ProcessMap.MakeGrid` | common/network/models/network_model_emesh_hop_by_hop.cc:374-377 | the grid has as many columns as the rounded square root of the process count, as many rows of processes as then fit, and the share of the mesh rows that they are of all processes; it has all the rows if no process is left over |
| `ProcessMap.Slices` | common/network/models/network_model_emesh_hop_by_hop.cc:383-395 | every coordinate lies in exactly one of the slices, the last of which takes the rest |
| `ProcessMap.OneRectangle` | common/network/models/network_model_emesh_hop_by_hop.cc:379-429 | every mesh position lies in the rectangle of exactly one process |
| `ProcessMap.PushRect` | common/network/models/network_model_emesh_hop_by_hop.cc:397-404 | the two inner loops add exactly the tiles of the rectangle, each once |
| `ProcessMap.ComputeProcessToTileMapping` | common/network/models/network_model_emesh_hop_by_hop.cc:365-432 | for every mesh and process count, each tile is in exactly one list exactly once, and the list of a process is that of its rectangle in the grid |
| `ProcessMap.DefaultMapping` | common/misc/config.cc:217-224 | tiles dealt out in turn: the k-th tile of process p is p + k times the process count, each process has the quotient of tiles and processes, the first ones one more; a partition |
| `ProcessMap.DealtInTurn` | common/misc/config.cc:217-224 | tile t is with process t mod the process count, at the quotient; no process has two tiles more than another |
| `ProcessMap.Config.constructor` | common/misc/config.cc:59-98 | one tile more for the MCP, and in FULL mode one for each process |
| `ProcessMap.Config.GenerateTileMap` | common/misc/config.cc:153-192 | in both modes the lists are a partition of all tiles, the map from tiles to processes agrees with them, and in FULL mode spawner tile p belongs to process p |
| `ProcessMap.Config.PlaceTiles` | common/misc/config.cc:165-173 | the tiles of a list below the first spawner are entered in both maps |
| `ProcessMap.Config.PlaceSpawners` | common/misc/config.cc:176-185 | the spawner tiles are entered one for each process, and both maps still agree |
| `ProcessMap.Config.ThreadSpawnerTile` | common/misc/config.cc:122-128 | the spawner of process p is the p-th tile after the application tiles, and there is none in LITE mode |
| `ProcessMap.Config.GetIndexFromTileID` | common/misc/config.cc:263-272 | the first index of the tile in the list of the process, found if and only if the tile belongs to it |
| `ProcessMap.LookupsInvert` | common/misc/config.cc:263-285 | index and tile lookups undo each other on the tiles and on the indices of every process |
| `Scheduler.AddKeepsInv` | common/system/thread_scheduler.cc:147-199 | scheduling a thread keeps the tile's queue the list of its threads, with only the front one running or being started |
| `Scheduler.StartKeepsInv` | common/system/thread_manager.cc:137-142 | so does the start of a thread |
| `Scheduler.ExitKeepsInv` | common/system/thread_scheduler.cc:100-145 | so does an exit, and exactly the front request leaves |
| `Scheduler.YieldKeepsInv` | common/system/thread_scheduler.cc:741-805 | so does a yield, and the queue has turned by one |
| `Scheduler.RoundRobin` | common/system/round_robin_thread_scheduler.cc:18-25 | with starts in between, n yields turn the queue by n: k yields of a queue of k put every thread at the front once |
| `Scheduler.WithoutOne` | common/system/thread_scheduler.cc:303-322 | exactly one request leaves the source queue, the one wanted, and the others keep their order |
| `Scheduler.RemoveKeepsInv` | common/system/thread_scheduler.cc:297-322 | taking a waiting thread away keeps the source tile in order if and only if it is not at the front and INITIALIZING |
| `Scheduler.ArriveKeepsInv` | common/system/thread_scheduler.cc:327-367 | a thread that arrives keeps the destination tile in order |
| `Scheduler.StepKeepsRun` | common/system/thread_manager.cc:273-329 | every spawn, start, yield and exit keeps all tiles in order |
| `Scheduler.MigrateKeepsRun` | common/system/thread_scheduler.cc:270-373 | a migration does if and only if the thread is not at the front of its queue and INITIALIZING |
| `Scheduler.MigrateWhileStarting` | common/system/thread_scheduler.cc:297-322 | a run of a spawn and a migration from the start that leaves a tile out of order |
| `Scheduler.StepKeepsTids` | common/system/thread_manager.cc:583-607 | every step keeps the map from thread ids to slots right |
| `Scheduler.RunsInOrder` | common/system/thread_scheduler.cc:100-246 | in every state of every run whose migrations take no thread that is being started, queues list exactly the threads that are not idle, once, and only the front one runs or is being started |
| `Scheduler.RunsFindThreads` | common/system/thread_manager.cc:583-607 | in every state of every run, whatever the migrations, the map leads to the slot of every living thread |
| `Scheduler.UniqueSlot` | common/system/thread_manager.cc:701-711 | two slots with the same thread id that are not idle are one, and the map names it |
| `Scheduler.StepHasEffect` | common/system/thread_scheduler.cc:100-373 | for every enabled step, the queues, slots, start requests, map and counter it leaves, written out: a spawn appends the request of a new thread id and starts it on a quiet tile; an exit or a yield hands over to the next in the queue; a migration takes the one request of the thread out of its queue, appends it at the first idle slot of the other tile with its thread id kept, leaves the old slot idle and lets the thread go on at once exactly if nobody runs or is new there; all other tiles stay |
| `Scheduler.RunsMigrate` | common/system/thread_scheduler.cc:289-373 | in every run that has been careful so far, a migration of a living thread to a tile with an idle slot moves request and state there, the map leads to the new slot, and the thread runs or is being started there if and only if nobody was |
| `Scheduler.PickExact` | common/system/thread_manager.cc:286-307 | the two loops find nothing if and only if every slot is taken, and which slot they find otherwise |
| `Scheduler.Master.GetIdleThread` | common/system/thread_manager.cc:739-764 | the first idle slot of a tile, or none |
| `Scheduler.Master.IsCore` | common/system/thread_manager.cc:865-892 | whether some thread of the tile has the status |
| `Scheduler.Master.MasterScheduleThread` | common/system/thread_scheduler.cc:147-199 | the request is last in the queue, and started only on a tile where nobody runs, starts or stalls |
| `Scheduler.Master.FindSlot` | common/system/thread_manager.cc:286-307 | nothing if and only if no slot of a tile after 0 is idle; otherwise the highest slot number that is free anywhere, on the first tile that has it free going round from the requester |
| `Scheduler.Master.MasterSpawnThread` | common/system/thread_manager.cc:273-329 | fails if and only if no slot is idle, on the tile asked for or on any; otherwise a new thread id names the slot, the request is last in its queue and the other tiles stay |
| `Scheduler.Master.MasterOnThreadStart` | common/system/thread_manager.cc:137-142 | the slot runs and its start request is gone; nothing else changes |
| `Scheduler.Master.MasterOnThreadExit` | common/system/thread_scheduler.cc:100-145 | the slot is idle, the front leaves the queue, and the next is asked to start if it is new and runs otherwise |
| `Scheduler.Master.MasterYieldThread` | common/system/thread_scheduler.cc:741-805 | the front stalls and goes to the end, and the next is asked to start if it is new and runs otherwise |
| `Scheduler.Sift` | common/system/thread_scheduler.cc:303-322 | the loop over the queue leaves the other requests in order and finds the one wanted |
| `Scheduler.Master.MasterMigrateThread` | common/system/thread_scheduler.cc:289-373 | nothing without an idle slot; otherwise the effect of a migration on both queues, both slots, the start requests and the map, in terms of their contents |
| `SyncModel.ParkKeepsInv` | common/system/thread_manager.cc:767-797 | stalling a core into a queue pays the debt to it and keeps everybody in one place |
| `SyncModel.UnparkKeepsInv` | common/system/thread_manager.cc:799-826 | resuming the first of a queue keeps everybody in one place and leaves a debt to it |
| `SyncModel.SendKeepsInv` | common/system/sync_server.cc:197-204 | a reply of the right kind pays the debt |
| `SyncRuns.HandleKeepsInv` | common/system/sync_server.cc:177-383 | every request, of whatever kind, leaves every core stalled exactly while it is in one queue, and nobody owed anything |
| `SyncTheorems.StalledMeansQueued` | common/system/sync_server.cc:27-165 | in every state of every run, a core is stalled if and only if it is in a queue of a mutex, condition, barrier, futex or join, in only one, and once |
| `SyncTheorems.OneReply` | common/system/sync_client.cc:49-359 | in every state of every run, a blocked client is queued with no reply on its way or not queued with exactly one, of the kind its call asserts; nobody else has either |
| `SyncTheorems.MutualExclusion` | common/system/sync_server.cc:27-57 | in every run in which signals find only waiters with one and the same mutex, no mutex is held by or granted to two threads, and its holder is the owner on record; waits with different mutexes and broadcasts to them are covered |
| `SyncTheorems.SignalKeepsOwn` | common/system/sync_server.cc:281-312 | a served signal with a waiter keeps holders, owners and recorded mutexes in agreement if and only if all waiters have the same mutex |
| `SyncOwners.EraseKeepsMutexes` | common/misc/stable_iterator.h:19-22 | erasing the first of a list of mutexes that are not moved is right if and only if they are all the same |
| `SyncOwners.SignalKeepsMutexes` | common/system/sync_server.cc:76-100 | after a signal the waiters left are recorded with their own mutexes if and only if all had the same |
| `SyncOwners.SignalMixesMutexes` | common/system/sync_server.cc:81-82 | two waiters with different mutexes, one of which is recorded with the other's after a signal |
| `SyncWitnesses.TwoHolders` | common/system/sync_server.cc:76-100 | a run of three threads from the start, with two signals to waiters of different mutexes, that ends with two holders of one mutex |
| `SyncRuns.HandleKeepsOwn` | common/system/sync_server.cc:185-344 | every request keeps the mutexes that clients hold in agreement with the owners on record, also when a waiter is moved to a mutex queue; a signal does if its waiters have one mutex |
| `SyncBarriers.BarrierGeneration` | common/system/sync_server.cc:133-165 | the count-th arrival and no other releases exactly the cores of its generation, each with one reply that carries the latest arrival time, and empties the barrier for its next use; the resuming loop stays within its flags if and only if the generation is cores 0 to count - 1 |
| `SyncBarriers.ResumesAll` | common/system/sync_server.cc:151-161 | for any waiters and flags, the loop indexes within the flags if and only if every waiter's tile has one, and then all waiters run again |
| `SyncBarriers.FlagsExact` | common/system/sync_server.cc:151-161 | with as many flags as waiters, that is so if and only if the waiters are exactly the tiles below their number |
| `SyncBarriers.FlagsSeen` | common/system/sync_server.cc:151-161 | the same, as a caller sees it before the last arrival is served |
| `SyncWitnesses.BeyondFlags` | common/system/sync_server.cc:151-158 | a run from the start after which serving core 1 at a barrier for one indexes one flag at 1 |
| `SyncBarriers.ReleasedClock` | common/system/sync_client.cc:346-356 | in every run, when a core of a released generation has received its reply its clock is the latest arrival time of the generation, whatever happened in between |
| `SyncReplies.HandleKept` | common/system/sync_server.cc:177-383 | whatever a core asks for, no other core changes its call or its clock or loses a reply |
| `SyncReplies.ReplyArrives` | common/system/sync_client.cc:72-85 | in every run a reply stays the only one on its way, and its client's clock stands still, until it is received |
| `SyncBarriers.RunKeepsBarriers` | common/system/sync_server.cc:133-165 | in every state of every run a barrier knows the latest arrival time of those that wait, which are fewer than its count |
| `SyncFutexes.WakeFutexWakes` | common/system/syscall_server.cc:1079-1102 | exactly the first min(max(val, 0), length) waiters wake, in order, with one reply each; all other queues and cores stay; the count is theirs |
| `SyncFutexes.RequeueInOrder` | common/system/syscall_server.cc:1057-1070 | between two addresses, exactly the next waiters move to the end of the other queue, in order, without a reply |
| `SyncFutexes.CmpRequeue` | common/system/syscall_server.cc:1048-1076 | for two addresses: the first wake, the next move, the rest stay, nobody is lost or doubled, and the count is woken plus moved |
| `SyncFutexes.CmpRequeueSame` | common/system/syscall_server.cc:1048-1076 | for one address: the first wake, the rest is turned round without replies, nobody is lost or doubled, nothing else changes, and every turn counts |
| `SyncFutexes.QueuesProper` | common/system/syscall_server.cc:1122-1140 | whenever the invariant of all runs holds, every queue names every core at most once, which the results above ask for |
| `SyncFutexes.FutexServed` | common/system/syscall_server.cc:873-1102 | in every run, a futex call that is served leaves exactly these queues, answers the woken with 0 and the sender with this count or error, and tells nobody else anything |
| `SyncFutexes.RequeueCountExact` | common/system/syscall_server.cc:1057-1067 | the count of the moves is the number of waiters moved if and only if the addresses differ, nobody waits, or the queue is long enough |
| `SyncFutexes.RequeueCountsAgain` | common/system/syscall_server.cc:1057-1067 | one waiter requeued to its own address counts ten times |
| `SyncEffects.WaitsForSomebody` | common/system/sync_server.cc:27-57 | in every state of every run, a mutex that somebody waits for has an owner; at most one thread waits for another to exit, and that other has not exited |
| `SyncEffects.CallServed` | common/system/sync_server.cc:177-344 | in every run, each init, lock, unlock, wait, signal, broadcast, join and exit that is taken up changes exactly the owner, queues, records and clients that the lemmas below say, and tells nobody else anything |
| `SyncEffects.ServedInit` | common/system/sync_server.cc:177-183 | a new object at the end of its vector, and its index for the sender |
| `SyncEffects.ServedLock` | common/system/sync_server.cc:185-209 | a free mutex is owned by the sender, who is told its own time; otherwise the sender is last in the queue, stalled and told nothing |
| `SyncEffects.ServedUnlock` | common/system/sync_server.cc:211-240 | with nobody in the queue the mutex is free; otherwise its first is owner, out of the queue, running and told the time of the sender; the sender has its own answer, and nobody else is told anything |
| `SyncEffects.ServedCondWait` | common/system/sync_server.cc:251-278 | the sender waits, recorded last with its mutex, and the mutex is handed over as by an unlock |
| `SyncEffects.ServedSignal` | common/system/sync_server.cc:281-312 | the first waiter becomes owner of the first mutex on record and is told the time of the sender, or is last in its queue and told nothing; the waiters move up, the last mutex on record is dropped |
| `SyncEffects.ServedBroadcast` | common/system/sync_server.cc:314-344 | every mutex has those of the waiters that were recorded with it at the end of its queue, in order, except that the first of them owns it if it was free; exactly those owners are told, at the time of the sender, and nobody waits on the condition |
| `SyncEffects.ServedJoin` | common/system/thread_manager.cc:433-466 | a thread that is gone is joined at once, with one reply of the time of the sender; for another the sender is on record and stalled |
| `SyncEffects.ServedExit` | common/system/thread_manager.cc:189-207 | the thread is idle and nobody is on record for it; who was runs again, with one reply of the time of the exit |
| `SyncEffects.StepKeepsBoth` | common/system/sync_server.cc:27-57 | every step of a run, of whatever kind, keeps both parts of WaitsForSomebody |
| `SyncEffects.ToldClock` | common/system/sync_client.cc:78-95 | in every run, a client that was told a time goes on, once it has received it, at that time or at its own, whichever is later |
| `SyncEffects.HandedOn` | common/system/sync_client.cc:49-98 | in every run, an unlock makes the first in the queue the owner, who goes on at the time of the unlock or at its own, whichever is later |
| `SyncServer.Server.Lock` | common/system/sync_server.cc:27-40 | granted exactly if free; otherwise last in the queue and stalled |
| `SyncServer.Server.Unlock` | common/system/sync_server.cc:42-57 | with waiters the first of them is owner, out of the queue and runs, and the others keep their order; without, nobody is owner and no thread changes |
| `SyncServer.Server.MutexLock` | common/system/sync_server.cc:185-209 | a lock that is free is granted with one reply that carries the lock code and the sender's time; otherwise the sender waits and gets none |
| `SyncServer.Server.MutexUnlock` | common/system/sync_server.cc:211-240 | the mutex goes to the first waiter, who runs and has the lock reply with the sender's time, or to nobody; the sender gets its own reply after that |
| `SyncServer.Server.CondWait` | common/system/sync_server.cc:251-278 | the sender is last among the waiters with its mutex beside it; the mutex goes to its first waiter, who runs and has the lock reply with the sender's time, or to nobody |
| `SyncServer.Server.Signal` | common/system/sync_server.cc:76-100 | the first waiter leaves, with the erased vector as it is, and gets its mutex or waits for it |
| `SyncServer.Server.CondSignal` | common/system/sync_server.cc:281-312 | a woken waiter is told only if it got its mutex; the sender is answered in any case |
| `SyncServer.Server.Broadcast` | common/system/sync_server.cc:102-119 | the loop over the whole vector, cleared at the end, is the same as waking the first waiter until none is left |
| `SyncServer.Server.CondBroadcast` | common/system/sync_server.cc:314-344 | those that got their mutex are told, then the sender |
| `SyncServer.Server.ResumeEach` | common/system/sync_server.cc:151-161 | the loop, with its vector of as many flags as waiters, for waiters on tiles that have a flag |
| `SyncServer.Server.BarrierWait` | common/system/sync_server.cc:357-383 | arrival, latest time and release as the state functions have them, about which BarrierGeneration is proved, for a generation whose tiles have flags |
| `SyncServer.Server.DequeueWaiter` | common/system/syscall_server.cc:1128-1140 | the first waiter leaves and runs, if there is one |
| `SyncServer.Server.EnqueueWaiter` | common/system/syscall_server.cc:1122-1126 | the core is last in the queue and stalled |
| `SyncServer.Server.FutexWakeUp` | common/system/syscall_server.cc:1079-1102 | the loop that breaks off at an empty queue wakes as many as there are turns and waiters |
| `SyncServer.Server.RequeueWaiters` | common/system/syscall_server.cc:1057-1070 | the loop that breaks off at an empty queue, for equal addresses too |
| `SyncServer.Server.FutexWait` | common/system/syscall_server.cc:873-895 | into the queue, or the error for another value |
| `SyncServer.Server.FutexWake` | common/system/syscall_server.cc:921-932 | the waiters woken are answered with 0 and the sender with their number |
| `SyncServer.Server.FutexWakeOp` | common/system/syscall_server.cc:984-1027 | for any outcome of the comparison, the second address is woken only if it holds, and the count is that of both |
| `SyncServer.Server.FutexCmpRequeue` | common/system/syscall_server.cc:1030-1077 | the error alone for another value; otherwise wake, then move, and the count is that of both |
| `SyncServer.Server.WakeUpWaiter` | common/system/thread_manager.cc:476-505 | the thread that joins, if there is one, runs, has its reply, and is not on record any more |
| `SyncServer.Server.JoinThread` | common/system/thread_manager.cc:433-466 | the caller waits, and is woken at once if the thread is gone |
| `SyncServer.Server.ThreadExit` | common/system/thread_manager.cc:189-207 | the thread is idle; whoever joins it runs, has the join reply with the time of the exit, and is not on record any more |
| `SyncServer.Server.Serve` | common/system/mcp.cc:38-150 | whatever the request, unless it completes a barrier generation beyond the flags, the tables are those of SyncHandlers, the invariant over all queues holds again, and calls other than barriers and futexes have the effects of SyncEffects |

## Left out

- Pin instrumentation, system calls other than futexes, sockets' set-up and tear-down, logging, summaries: plumbing around unseen libraries.
- The implementations of routers, links, queues and contention: what they answer is any function of the header, the packet and the place, and a packet comes to a place only once.
- ATAC, magic and hop-counter networks and the system network: only the hop-by-hop mesh is modelled.
- Conversion of cycle counts between clocks: there is one global clock of natural numbers.
- Cache, core, power and memory models: not part of this model.
- `common/misc/cond.cc` and the blocking of `netRecv`: a client's receive is a step that needs a reply.
- Simulated memory behind futexes: the outcome of a comparison is part of the request, and FUTEX_WAKE_OP's write to memory is not modelled.
- More than one thread for each core in the synchronisation server: the source fixes it to one (common/misc/config.cc:47-48).
- Growth of the vectors of mutexes, conditions and barriers: it copies the elements and destroys the old ones, whose destructors assert that nobody waits (common/system/sync_server.cc:22-25, 62-65, 128-131), so that growing one of them while somebody waits in it stops the program; the model goes on.
- The scheduler on tile 0, LITE mode spawn replies, affinity-driven migration, and the client's side of `yieldThread`.
- Migration of a thread to its own tile: the source acquires the tile's lock twice.
- Integer widths, except for the 32-bit words of a frame; packets of length 0, for which a blocking receive does not return.
- The checksums of packets, compiled in only on demand.
- SyncServer.Server.BarrierWait: asks that the generation it completes has its tiles within the flags, because what the source does otherwise is an access beyond a vector, of which C++ promises nothing.
- Framing.SockTransport.UpdateBufferLists: that everything is delivered is stated for calls in which no poll missed bytes that had arrived, because a poll may always find nothing.
- Scheduler.MigrateKeepsRun: combined with sync-server stalls the run queue has no such invariant in the source, and none is stated.
