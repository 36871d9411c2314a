/**
 The master thread scheduler: common/system/thread_scheduler.cc with the
 round-robin requeueThread of common/system/round_robin_thread_scheduler.cc, and
 the spawn, start, exit and tid-map parts of common/system/thread_manager.cc.
 Full mode, application tiles, any number of threads per core.
 */
module Scheduler {
  import opened Arithmetic

  datatype Status = Idle | Initializing | Running | Stalled

  datatype Slot = Slot(tile: nat, idx: nat)

  // ThreadManager::ThreadState: thread_id stays behind when a slot becomes idle.
  datatype Thread = Thread(status: Status, tid: int)

  // ThreadSpawnRequest: the slot it is for on its tile, and the tid it was given.
  datatype Request = Request(tidx: nat, tid: int)

  // One tile: its waiter queue, its slots, and the slots whose start request is on its way.
  datatype Tile = Tile(queue: seq<Request>, threads: seq<Thread>, starting: set<nat>)

  // ---------------------------------------------------------------- one tile

  // getIdleThread: the first idle slot, or -1
  function FirstIdle(ts: seq<Thread>): (k: int)
    ensures -1 <= k < |ts|
    ensures k >= 0 ==> ts[k].status.Idle? && forall j :: 0 <= j < k ==> !ts[j].status.Idle?
    ensures k < 0 ==> forall j :: 0 <= j < |ts| ==> !ts[j].status.Idle?
  {
    if ts == [] then -1
    else if ts[0].status.Idle? then 0
    else var k := FirstIdle(ts[1..]);
         assert forall j :: 1 <= j < |ts| ==> ts[j] == ts[1..][j - 1];
         if k < 0 then -1 else k + 1
  }

  predicate Any(ts: seq<Thread>, status: Status) {
    exists j :: 0 <= j < |ts| && ts[j].status == status
  }

  function SetStatus(tile: Tile, j: nat, status: Status): Tile
    requires j < |tile.threads|
  {
    tile.(threads := tile.threads[j := tile.threads[j].(status := status)])
  }

  // Front and slots are in order.
  predicate FrontOk(tile: Tile) {
    tile.queue != [] && tile.queue[0].tidx < |tile.threads|
  }

  // masterStartThread: ask the process of the tile to start the thread at the front
  function StartFront(tile: Tile): Tile
    requires FrontOk(tile)
  {
    tile.(starting := tile.starting + {tile.queue[0].tidx})
  }

  // The thread at the front is new and is started, or it was stalled and goes on.
  function RunFront(tile: Tile): Tile
    requires FrontOk(tile)
  {
    var j := tile.queue[0].tidx;
    if tile.threads[j].status.Initializing? then StartFront(tile) else SetStatus(tile, j, Running)
  }

  // getNewThreadId, on the slot
  function Named(tile: Tile, j: nat, tid: int): Tile
    requires j < |tile.threads|
  {
    tile.(threads := tile.threads[j := tile.threads[j].(tid := tid)])
  }

  // masterScheduleThread on the destination tile; `alone` says that the request does not come from this tile
  function Add(tile: Tile, req: Request, alone: bool): Tile
    requires req.tidx < |tile.threads| && (tile.queue != [] ==> FrontOk(tile))
  {
    var startable := alone && !Any(tile.threads, Running) && !Any(tile.threads, Initializing) && !Any(tile.threads, Stalled);
    var added := SetStatus(tile.(queue := tile.queue + [req]), req.tidx, Initializing);
    if startable then StartFront(added) else added
  }

  // ThreadManager::masterOnThreadStart
  function Started(tile: Tile, j: nat): Tile
    requires j < |tile.threads|
  {
    SetStatus(tile, j, Running).(starting := tile.starting - {j})
  }

  // masterOnThreadExit
  function Exited(tile: Tile, j: nat): Tile
    requires j < |tile.threads| && forall k :: 0 <= k < |tile.queue| ==> tile.queue[k].tidx < |tile.threads|
  {
    var idle := SetStatus(tile, j, Idle);
    var popped := if idle.queue == [] then idle else idle.(queue := idle.queue[1..]);
    if popped.queue == [] then popped else RunFront(popped)
  }

  // masterYieldThread without migration, requeued round robin
  function Yielded(tile: Tile): Tile
    requires tile.queue != [] && forall k :: 0 <= k < |tile.queue| ==> tile.queue[k].tidx < |tile.threads|
  {
    var stalled := SetStatus(tile, tile.queue[0].tidx, Stalled);
    RunFront(stalled.(queue := stalled.queue[1..] + [stalled.queue[0]]))
  }

  // ---------------------------------------------------------------- the run invariant

  predicate InRange(tile: Tile) {
    forall k :: 0 <= k < |tile.queue| ==> tile.queue[k].tidx < |tile.threads|
  }

  // Slot j is in the queue.
  predicate Queued(queue: seq<Request>, j: nat) {
    exists k :: 0 <= k < |queue| && queue[k].tidx == j
  }

  predicate NoTwice(queue: seq<Request>) {
    forall k, l :: 0 <= k < l < |queue| ==> queue[k].tidx != queue[l].tidx
  }

  // The queue lists exactly the threads that are not idle, each once, and only
  // the one at the front is running or being started.
  predicate TileInv(tile: Tile) {
    && InRange(tile) && NoTwice(tile.queue)
    && (forall j :: 0 <= j < |tile.threads| ==> (Queued(tile.queue, j) <==> !tile.threads[j].status.Idle?))
    && (tile.queue != [] ==>
          var j := tile.queue[0].tidx;
          if j in tile.starting then tile.threads[j].status.Initializing? else tile.threads[j].status.Running?)
    && (forall k :: 1 <= k < |tile.queue| ==> Waiting(tile, tile.queue[k].tidx))
    && (forall j :: j in tile.starting ==> tile.queue != [] && j == tile.queue[0].tidx)
  }

  predicate Waiting(tile: Tile, j: nat)
    requires j < |tile.threads|
  {
    tile.threads[j].status.Initializing? || tile.threads[j].status.Stalled?
  }

  // A tile has somebody in its queue if and only if some slot is not idle.
  lemma {:induction false} Somebody(tile: Tile)
    requires TileInv(tile)
    ensures tile.queue != [] <==>
      Any(tile.threads, Running) || Any(tile.threads, Initializing) || Any(tile.threads, Stalled)
    ensures tile.queue == [] ==> tile.starting == {}
  {
    if tile.queue == [] {
      forall j | 0 <= j < |tile.threads| ensures tile.threads[j].status.Idle? {
        assert !Queued(tile.queue, j);
      }
    }
  }

  lemma {:induction false} QueuedAppend(queue: seq<Request>, req: Request, j: nat)
    ensures Queued(queue + [req], j) <==> Queued(queue, j) || j == req.tidx
  {
    var q := queue + [req];
    if Queued(queue, j) {
      var k :| 0 <= k < |queue| && queue[k].tidx == j;
      assert q[k].tidx == j;
    }
    assert q[|queue|] == req;
  }

  lemma {:induction false} AddKeepsInv(tile: Tile, req: Request, alone: bool)
    requires TileInv(tile) && req.tidx < |tile.threads| && tile.threads[req.tidx].status.Idle?
    // A request from this tile comes from its running thread.
    requires !alone ==> tile.queue != []
    ensures TileInv(Add(tile, req, alone))
  {
    var thread := tile.threads[req.tidx].(status := Initializing);
    Somebody(tile);
    assert !Queued(tile.queue, req.tidx);
    if tile.queue == [] {
      PutFirst(tile, req, thread, {req.tidx});
      assert tile.queue + [req] == [req];
    } else {
      PutLater(tile, req, thread);
    }
  }

  // A thread on a tile of its own, being started or running.
  lemma {:induction false} PutFirst(tile: Tile, req: Request, thread: Thread, starting: set<nat>)
    requires TileInv(tile) && req.tidx < |tile.threads| && tile.queue == []
    requires if thread.status.Initializing? then starting == {req.tidx} else thread.status.Running? && starting == {}
    ensures TileInv(Tile([req], tile.threads[req.tidx := thread], starting))
  {
    forall j | 0 <= j < |tile.threads| ensures Queued([req], j) <==> j == req.tidx {
      QueuedAppend([], req, j);
      assert [] + [req] == [req];
    }
  }

  // A thread that waits behind others.
  lemma {:induction false} PutLater(tile: Tile, req: Request, thread: Thread)
    requires TileInv(tile) && req.tidx < |tile.threads| && tile.queue != [] && !Queued(tile.queue, req.tidx)
    requires thread.status.Initializing? || thread.status.Stalled?
    ensures TileInv(tile.(queue := tile.queue + [req], threads := tile.threads[req.tidx := thread]))
  {
    var r := tile.(queue := tile.queue + [req], threads := tile.threads[req.tidx := thread]);
    forall j | 0 <= j < |tile.threads| ensures Queued(r.queue, j) <==> Queued(tile.queue, j) || j == req.tidx {
      QueuedAppend(tile.queue, req, j);
    }
    forall k | 1 <= k < |r.queue| ensures Waiting(r, r.queue[k].tidx) {
      if k < |tile.queue| {
        assert Waiting(tile, tile.queue[k].tidx) && Queued(tile.queue, tile.queue[k].tidx);
      }
    }
    assert Queued(tile.queue, tile.queue[0].tidx);
  }

  lemma {:induction false} StartKeepsInv(tile: Tile, j: nat)
    requires TileInv(tile) && j in tile.starting
    ensures j < |tile.threads| && tile.threads[j].status.Initializing? && TileInv(Started(tile, j))
  {
    assert tile.queue[0].tidx == j;
  }

  lemma {:induction false} FrontRuns(tile: Tile, j: nat)
    requires TileInv(tile) && j < |tile.threads| && tile.threads[j].status.Running?
    ensures tile.queue != [] && tile.queue[0].tidx == j && tile.starting == {}
  {
    assert Queued(tile.queue, j);
    var k :| 0 <= k < |tile.queue| && tile.queue[k].tidx == j;
    assert k > 0 ==> Waiting(tile, j);
  }

  // Everybody in the queue waits, and nobody runs.
  predicate Ready(tile: Tile) {
    && tile.queue != [] && InRange(tile) && NoTwice(tile.queue) && tile.starting == {}
    && (forall j :: 0 <= j < |tile.threads| ==> (Queued(tile.queue, j) <==> !tile.threads[j].status.Idle?))
    && (forall k :: 0 <= k < |tile.queue| ==> Waiting(tile, tile.queue[k].tidx))
  }

  lemma {:induction false} RunFrontKeepsInv(tile: Tile)
    requires Ready(tile)
    ensures TileInv(RunFront(tile)) && RunFront(tile).queue == tile.queue
  {
    var (j, r) := (tile.queue[0].tidx, RunFront(tile));
    assert Waiting(tile, j);
    assert Queued(tile.queue, j);
    forall k | 1 <= k < |r.queue| ensures Waiting(r, r.queue[k].tidx) {
      assert Waiting(tile, tile.queue[k].tidx);
    }
  }

  lemma {:induction false} QueuedTail(queue: seq<Request>, j: nat)
    requires queue != [] && NoTwice(queue)
    ensures NoTwice(queue[1..])
    ensures Queued(queue[1..], j) <==> Queued(queue, j) && j != queue[0].tidx
  {
    if Queued(queue[1..], j) {
      var k :| 0 <= k < |queue[1..]| && queue[1..][k].tidx == j;
      assert queue[k + 1].tidx == j;
    }
    if Queued(queue, j) && j != queue[0].tidx {
      var k :| 0 <= k < |queue| && queue[k].tidx == j;
      assert queue[1..][k - 1].tidx == j;
    }
  }

  lemma {:induction false} ExitKeepsInv(tile: Tile, j: nat)
    requires TileInv(tile) && j < |tile.threads| && tile.threads[j].status.Running?
    ensures TileInv(Exited(tile, j)) && Exited(tile, j).queue == tile.queue[1..]
  {
    FrontRuns(tile, j);
    var popped := SetStatus(tile, j, Idle).(queue := tile.queue[1..]);
    forall i | 0 <= i < |tile.threads| ensures Queued(popped.queue, i) <==> !popped.threads[i].status.Idle? {
      QueuedTail(tile.queue, i);
    }
    QueuedTail(tile.queue, j);
    if popped.queue != [] {
      forall k | 0 <= k < |popped.queue| ensures Waiting(popped, popped.queue[k].tidx) {
        assert Waiting(tile, tile.queue[k + 1].tidx);
      }
      RunFrontKeepsInv(popped);
    }
  }

  function Rotated(queue: seq<Request>): seq<Request> {
    if queue == [] then [] else queue[1..] + [queue[0]]
  }

  lemma {:induction false} QueuedRotated(queue: seq<Request>, j: nat)
    requires queue != [] && NoTwice(queue)
    ensures NoTwice(Rotated(queue)) && (Queued(Rotated(queue), j) <==> Queued(queue, j))
  {
    QueuedTail(queue, j);
    QueuedAppend(queue[1..], queue[0], j);
    assert Queued(queue, queue[0].tidx);
  }

  lemma {:induction false} YieldKeepsInv(tile: Tile, j: nat)
    requires TileInv(tile) && j < |tile.threads| && tile.threads[j].status.Running?
    ensures FrontOk(tile) && tile.queue[0].tidx == j
    ensures TileInv(Yielded(tile)) && Yielded(tile).queue == Rotated(tile.queue)
  {
    FrontRuns(tile, j);
    var r := SetStatus(tile, j, Stalled).(queue := Rotated(tile.queue));
    forall i | 0 <= i < |tile.threads| ensures Queued(r.queue, i) <==> !r.threads[i].status.Idle? {
      QueuedRotated(tile.queue, i);
    }
    QueuedRotated(tile.queue, j);
    forall k | 0 <= k < |r.queue| ensures Waiting(r, r.queue[k].tidx) {
      if k < |tile.queue| - 1 {
        assert Waiting(tile, tile.queue[k + 1].tidx);
      }
    }
    RunFrontKeepsInv(r);
  }

  // ---------------------------------------------------------------- turns

  // What happens on a tile that nobody joins or leaves.
  datatype Turn = YieldTurn | StartTurn(idx: nat)

  // The queue after n yields.
  function Turned(queue: seq<Request>, n: nat): seq<Request>
    requires n <= |queue|
  {
    queue[n..] + queue[..n]
  }

  predicate CanTurn(tile: Tile, turn: Turn) {
    match turn
    case YieldTurn => InRange(tile) && tile.queue != [] && tile.threads[tile.queue[0].tidx].status.Running?
    case StartTurn(j) => j in tile.starting && j < |tile.threads|
  }

  function TakeTurn(tile: Tile, turn: Turn): Tile
    requires CanTurn(tile, turn)
  {
    match turn
    case YieldTurn => Yielded(tile)
    case StartTurn(j) => Started(tile, j)
  }

  predicate Turns(tiles: seq<Tile>, turns: seq<Turn>) {
    && |tiles| == |turns| + 1
    && forall i :: 0 <= i < |turns| ==> TurnTaken(tiles, turns, i)
  }

  predicate TurnTaken(tiles: seq<Tile>, turns: seq<Turn>, i: nat)
    requires i < |turns| && |tiles| == |turns| + 1
  {
    CanTurn(tiles[i], turns[i]) && tiles[i + 1] == TakeTurn(tiles[i], turns[i])
  }

  function Yields(turns: seq<Turn>, i: nat): nat
    requires i <= |turns|
  {
    if i == 0 then 0 else Yields(turns, i - 1) + if turns[i - 1].YieldTurn? then 1 else 0
  }

  // However starts come in between, n yields turn the queue by n places: the
  // threads of a queue of k come to the front one after the other, and after k
  // yields it is the first one's turn again.
  lemma {:induction false} RoundRobin(tiles: seq<Tile>, turns: seq<Turn>, i: nat)
    requires Turns(tiles, turns) && TileInv(tiles[0]) && i <= |turns| && Yields(turns, i) <= |tiles[0].queue|
    ensures TileInv(tiles[i])
    ensures tiles[i].queue == Turned(tiles[0].queue, Yields(turns, i))
    ensures Yields(turns, i) < |tiles[0].queue| ==> tiles[i].queue[0] == tiles[0].queue[Yields(turns, i)]
    ensures Yields(turns, i) == |tiles[0].queue| ==> tiles[i].queue == tiles[0].queue
  {
    var (q, n) := (tiles[0].queue, Yields(turns, i));
    if i > 0 {
      RoundRobin(tiles, turns, i - 1);
      assert TurnTaken(tiles, turns, i - 1);
      var tile := tiles[i - 1];
      if turns[i - 1].YieldTurn? {
        YieldKeepsInv(tile, tile.queue[0].tidx);
        TurnedOnce(q, n - 1);
      } else {
        StartKeepsInv(tile, turns[i - 1].idx);
      }
    }
  }

  lemma {:induction false} TurnedOnce(q: seq<Request>, n: nat)
    requires n < |q|
    ensures Rotated(Turned(q, n)) == Turned(q, n + 1)
  {
    assert q[n..][1..] == q[n + 1..];
    assert q[..n + 1] == q[..n] + [q[n]];
  }

  // ---------------------------------------------------------------- migration between tiles

  // The queue without the requests for slot j.
  function Without(queue: seq<Request>, j: nat): seq<Request> {
    if queue == [] then []
    else
      var (rest, last) := (queue[..|queue| - 1], queue[|queue| - 1]);
      if last.tidx == j then Without(rest, j) else Without(rest, j) + [last]
  }

  // The last request for slot j.
  function Found(queue: seq<Request>, j: nat): Request
    requires Queued(queue, j)
  {
    var (rest, last) := (queue[..|queue| - 1], queue[|queue| - 1]);
    if last.tidx == j then last
    else
      assert Queued(rest, j) by {
        var k :| 0 <= k < |queue| && queue[k].tidx == j;
        assert rest[k].tidx == j;
      }
      Found(rest, j)
  }

  lemma {:induction false} WithoutNext(queue: seq<Request>, r: Request, j: nat)
    ensures Without(queue + [r], j) == if r.tidx == j then Without(queue, j) else Without(queue, j) + [r]
  {
    assert (queue + [r])[..|queue|] == queue;
  }

  lemma {:induction false} WithoutOthers(queue: seq<Request>, j: nat)
    requires !Queued(queue, j)
    ensures Without(queue, j) == queue
    decreases |queue|
  {
    if queue != [] {
      var (rest, last) := (queue[..|queue| - 1], queue[|queue| - 1]);
      assert queue[|queue| - 1] == last;
      assert forall k :: 0 <= k < |rest| ==> queue[k] == rest[k];
      WithoutOthers(rest, j);
    }
  }

  // Exactly one request leaves the queue, and the others keep their order.
  lemma {:induction false} WithoutOne(queue: seq<Request>, j: nat, p: nat)
    requires NoTwice(queue) && p < |queue| && queue[p].tidx == j
    ensures Without(queue, j) == queue[..p] + queue[p + 1..]
    ensures Queued(queue, j) && Found(queue, j) == queue[p]
    decreases |queue|
  {
    var (n, rest) := (|queue| - 1, queue[..|queue| - 1]);
    if p == n {
      assert !Queued(rest, j);
      WithoutOthers(rest, j);
    } else {
      WithoutOne(rest, j, p);
      assert queue[p + 1..] == rest[p + 1..] + [queue[n]] && queue[..p] == rest[..p];
    }
  }

  function Removed(tile: Tile, j: nat): Tile
    requires j < |tile.threads|
  {
    SetStatus(tile, j, Idle).(queue := Without(tile.queue, j))
  }

  // The request goes to the end of the destination's queue; its thread is started or resumed at once if nobody runs there.
  function Arrived(tile: Tile, k: nat, thread: Thread, req: Request): Tile
    requires k < |tile.threads| && InRange(tile)
  {
    var startable := !Any(tile.threads, Running) && !Any(tile.threads, Initializing);
    var here := tile.(queue := tile.queue + [req.(tidx := k)], threads := tile.threads[k := thread]);
    if !startable then here
    else if thread.status.Initializing? then StartFront(here) else SetStatus(here, k, Running)
  }

  lemma {:induction false} QueuedWithout(queue: seq<Request>, p: nat, j: nat)
    requires NoTwice(queue) && p < |queue|
    ensures NoTwice(queue[..p] + queue[p + 1..])
    ensures Queued(queue[..p] + queue[p + 1..], j) <==> Queued(queue, j) && j != queue[p].tidx
  {
    var rest := queue[..p] + queue[p + 1..];
    if Queued(rest, j) {
      var k :| 0 <= k < |rest| && rest[k].tidx == j;
      assert queue[if k < p then k else k + 1].tidx == j;
    }
    if Queued(queue, j) && j != queue[p].tidx {
      var k :| 0 <= k < |queue| && queue[k].tidx == j;
      assert rest[if k < p then k else k - 1].tidx == j;
    }
  }

  // At the front and INITIALIZING.
  predicate BeingStarted(tile: Tile, j: nat) {
    tile.queue != [] && tile.queue[0].tidx == j && j < |tile.threads| && tile.threads[j].status.Initializing?
  }

  // Taking a waiting thread away keeps the source tile in order if and only if
  // that thread is not being started.
  lemma {:induction false} RemoveKeepsInv(tile: Tile, j: nat)
    requires TileInv(tile) && j < |tile.threads| && !tile.threads[j].status.Running? && !tile.threads[j].status.Idle?
    ensures TileInv(Removed(tile, j)) <==> !BeingStarted(tile, j)
  {
    assert Queued(tile.queue, j);
    var p: nat :| p < |tile.queue| && tile.queue[p].tidx == j;
    WithoutOne(tile.queue, j, p);
    if j in tile.starting {
      QueuedWithout(tile.queue, p, j);
      var r := Removed(tile, j);
      assert r.queue != [] ==> Queued(r.queue, r.queue[0].tidx);
    } else {
      RemoveLater(tile, j, p);
    }
  }

  lemma {:induction false} RemoveLater(tile: Tile, j: nat, p: nat)
    requires TileInv(tile) && 1 <= p < |tile.queue| && tile.queue[p].tidx == j
    ensures TileInv(SetStatus(tile, j, Idle).(queue := tile.queue[..p] + tile.queue[p + 1..]))
  {
    var r := SetStatus(tile, j, Idle).(queue := tile.queue[..p] + tile.queue[p + 1..]);
    QueuedWithout(tile.queue, p, j);
    forall i | 0 <= i < |tile.threads| ensures Queued(r.queue, i) <==> !r.threads[i].status.Idle? {
      QueuedWithout(tile.queue, p, i);
    }
    forall k | 1 <= k < |r.queue| ensures Waiting(r, r.queue[k].tidx) {
      assert Waiting(tile, tile.queue[if k < p then k else k + 1].tidx);
    }
  }

  lemma {:induction false} ArriveKeepsInv(tile: Tile, k: nat, thread: Thread, req: Request)
    requires TileInv(tile) && k < |tile.threads| && tile.threads[k].status.Idle?
    requires thread.status.Initializing? || thread.status.Stalled?
    ensures TileInv(Arrived(tile, k, thread, req))
  {
    var r := req.(tidx := k);
    Somebody(tile);
    assert !Queued(tile.queue, k);
    if tile.queue == [] {
      assert tile.queue + [r] == [r];
      if thread.status.Initializing? {
        PutFirst(tile, r, thread, {k});
      } else {
        PutFirst(tile, r, thread.(status := Running), {});
        assert tile.threads[k := thread][k := thread.(status := Running)] == tile.threads[k := thread.(status := Running)];
      }
    } else {
      var front := tile.queue[0].tidx;
      assert tile.threads[front].status.Running? || tile.threads[front].status.Initializing?;
      PutLater(tile, r, thread);
    }
  }

  // ---------------------------------------------------------------- all tiles

  datatype Option<T> = None | Some(value: T)

  // tidMap is m_tid_to_core_map; `alive` are the tids that were given out and have not exited.
  datatype State = State(tiles: seq<Tile>, tidMap: map<int, Slot>, counter: nat, alive: set<int>)

  predicate Shape(s: State) {
    |s.tiles| >= 1 && forall t :: 0 <= t < |s.tiles| ==> |s.tiles[t].threads| == |s.tiles[0].threads| && InRange(s.tiles[t])
  }

  predicate IsSlot(s: State, slot: Slot) {
    slot.tile < |s.tiles| && slot.idx < |s.tiles[slot.tile].threads|
  }

  function At(s: State, slot: Slot): Thread
    requires IsSlot(s, slot)
  {
    s.tiles[slot.tile].threads[slot.idx]
  }

  function SetTile(s: State, t: nat, tile: Tile): State
    requires t < |s.tiles|
  {
    s.(tiles := s.tiles[t := tile])
  }

  // masterSpawnThread, inner loop: the next tile after `from` whose slot j is idle, tile 0 left out
  function FreeTile(s: State, from: nat, j: nat, i: nat): (t: int)
    requires Shape(s) && j < |s.tiles[0].threads| && i >= 1
    ensures t == -1 || (1 <= t < |s.tiles| && s.tiles[t].threads[j].status.Idle?)
    decreases |s.tiles| + 1 - i
  {
    if i > |s.tiles| then -1
    else
      var t := TileAfter(|s.tiles|, from, i);
      if t != 0 && s.tiles[t].threads[j].status.Idle? then t else FreeTile(s, from, j, i + 1)
  }

  // The tile i places after another, round and round
  function TileAfter(n: nat, from: nat, i: nat): (t: nat)
    requires n >= 1
    ensures t < n
  {
    (from + i) % n
  }

  // Slot j of tile t cannot be had.
  predicate Occupied(s: State, t: nat, j: nat)
    requires Shape(s) && t < |s.tiles| && j < |s.tiles[0].threads|
  {
    t == 0 || !s.tiles[t].threads[j].status.Idle?
  }

  // Outer loop: it goes on after a hit, so the last slot number with a free tile wins.
  function Pick(s: State, from: nat, j: nat): (r: Option<Slot>)
    requires Shape(s) && j <= |s.tiles[0].threads|
    ensures r.Some? ==> r.value.tile >= 1 && IsSlot(s, r.value) && At(s, r.value).status.Idle?
  {
    if j == 0 then None
    else
      var t := FreeTile(s, from, j - 1, 1);
      if t >= 0 then Some(Slot(t, j - 1)) else Pick(s, from, j - 1)
  }

  // The inner loop passes over what cannot be had, and stops at the first that can.
  lemma {:induction false} FreeTileFirst(s: State, from: nat, j: nat, i: nat) returns (k: nat)
    requires Shape(s) && j < |s.tiles[0].threads| && 1 <= i <= |s.tiles| + 1
    ensures i <= k <= |s.tiles| + 1 && forall l: nat :: i <= l < k ==> Occupied(s, TileAfter(|s.tiles|, from, l), j)
    ensures FreeTile(s, from, j, i) == if k <= |s.tiles| then TileAfter(|s.tiles|, from, k) else -1
    decreases |s.tiles| + 1 - i
  {
    if i > |s.tiles| || !Occupied(s, TileAfter(|s.tiles|, from, i), j) {
      k := i;
    } else {
      k := FreeTileFirst(s, from, j, i + 1);
    }
  }

  // Going round once, every tile comes by.
  lemma {:induction false} ComesBy(s: State, from: nat, t: nat) returns (i: nat)
    requires t < |s.tiles|
    ensures 1 <= i <= |s.tiles| && TileAfter(|s.tiles|, from, i) == t
  {
    var n := |s.tiles|;
    var (q, r) := (from / n, from % n);
    assert from == q * n + r;
    i := if t > r then t - r else t - r + n;
    if t > r {
      DivMod(n, q, t);
    } else {
      assert from + i == (q + 1) * n + t;
      DivMod(n, q + 1, t);
    }
  }

  // No tile has slot j free if the inner loop finds none.
  lemma {:induction false} FreeTileNone(s: State, from: nat, j: nat)
    requires Shape(s) && j < |s.tiles[0].threads|
    ensures FreeTile(s, from, j, 1) < 0 <==> forall t: nat :: t < |s.tiles| ==> Occupied(s, t, j)
  {
    var k := FreeTileFirst(s, from, j, 1);
    if k > |s.tiles| {
      forall t: nat | t < |s.tiles| ensures Occupied(s, t, j) {
        var i := ComesBy(s, from, t);
      }
    } else {
      assert !Occupied(s, TileAfter(|s.tiles|, from, k), j);
    }
  }

  ghost predicate AllOccupied(s: State, lo: nat, hi: nat)
    requires Shape(s) && hi <= |s.tiles[0].threads|
  {
    forall t: nat, i: nat :: t < |s.tiles| && lo <= i < hi ==> Occupied(s, t, i)
  }

  // The loops find nothing if and only if there is nothing, and otherwise the highest
  // slot number that is free anywhere, on the next tile after `from` that has it free.
  lemma {:induction false} PickExact(s: State, from: nat, j: nat)
    requires Shape(s) && j <= |s.tiles[0].threads|
    ensures var r := Pick(s, from, j);
      && (r.None? <==> AllOccupied(s, 0, j))
      && (r.Some? ==> r.value.idx < j && AllOccupied(s, r.value.idx + 1, j) && Nearest(s, from, r.value))
  {
    if j > 0 {
      FreeTileNone(s, from, j - 1);
      PickExact(s, from, j - 1);
      var k := FreeTileFirst(s, from, j - 1, 1);
      var r := Pick(s, from, j);
      if k <= |s.tiles| {
        assert !Occupied(s, TileAfter(|s.tiles|, from, k), j - 1);
      }
    }
  }

  // No tile before this one, going round from the next, has the slot free.
  ghost predicate Nearest(s: State, from: nat, slot: Slot)
    requires Shape(s) && slot.idx < |s.tiles[0].threads|
  {
    exists k: nat :: 1 <= k <= |s.tiles| && TileAfter(|s.tiles|, from, k) == slot.tile
      && forall l: nat :: 1 <= l < k ==> Occupied(s, TileAfter(|s.tiles|, from, l), slot.idx)
  }

  function Target(s: State, from: nat, dest: int): (r: Option<Slot>)
    requires Shape(s) && (dest == -1 || 1 <= dest < |s.tiles|)
    ensures r.Some? ==> r.value.tile >= 1 && IsSlot(s, r.value) && At(s, r.value).status.Idle?
  {
    if dest == -1 then Pick(s, from, |s.tiles[0].threads|)
    else var k := FirstIdle(s.tiles[dest].threads); if k < 0 then None else Some(Slot(dest, k))
  }

  datatype Step =
    | Spawn(requester: Slot, dest: int)
    | Start(slot: Slot)
    | Yield(slot: Slot)
    | Exit(slot: Slot)
    | Migrate(tid: int, to: nat)

  // What the assertions of the handlers demand.
  predicate Enabled(s: State, step: Step) {
    && Shape(s)
    && match step
       case Spawn(requester, dest) =>
         && IsSlot(s, requester) && At(s, requester).status.Running?
         && (dest == -1 || 1 <= dest < |s.tiles|) && Target(s, requester.tile, dest).Some?
       case Start(slot) =>
         && slot.tile >= 1 && IsSlot(s, slot)
         && slot.idx in s.tiles[slot.tile].starting && At(s, slot).status.Initializing?
       case Yield(slot) =>
         && slot.tile >= 1 && IsSlot(s, slot) && At(s, slot).status.Running?
         && s.tiles[slot.tile].queue != [] && s.tiles[slot.tile].queue[0].tidx == slot.idx
       case Exit(slot) =>
         && slot.tile >= 1 && IsSlot(s, slot) && At(s, slot).status.Running?
         && forall j :: 0 <= j < |s.tiles[slot.tile].threads| && j != slot.idx ==> !s.tiles[slot.tile].threads[j].status.Running?
       case Migrate(tid, to) =>
         && 1 <= to < |s.tiles| && tid in s.tidMap
         && (FirstIdle(s.tiles[to].threads) >= 0 ==> var src := s.tidMap[tid];
              && src.tile >= 1 && src.tile != to && IsSlot(s, src)
              && !At(s, src).status.Running? && !At(s, src).status.Idle? && Queued(s.tiles[src.tile].queue, src.idx))
  }

  function DoSpawn(s: State, from: nat, slot: Slot): State
    requires Shape(s) && IsSlot(s, slot)
  {
    var tid := s.counter + 1;
    SetTile(s, slot.tile, Add(Named(s.tiles[slot.tile], slot.idx, tid), Request(slot.idx, tid), from != slot.tile))
      .(tidMap := s.tidMap[tid := slot], counter := tid, alive := s.alive + {tid})
  }

  function DoMigrate(s: State, src: Slot, dst: Slot): State
    requires Shape(s) && IsSlot(s, src) && IsSlot(s, dst) && src.tile != dst.tile && Queued(s.tiles[src.tile].queue, src.idx)
  {
    var thread := At(s, src);
    var req := Found(s.tiles[src.tile].queue, src.idx);
    SetTile(SetTile(s, src.tile, Removed(s.tiles[src.tile], src.idx)),
            dst.tile, Arrived(s.tiles[dst.tile], dst.idx, thread, req))
      .(tidMap := s.tidMap[thread.tid := dst])
  }

  function Do(s: State, step: Step): State
    requires Enabled(s, step)
  {
    match step
    case Spawn(requester, dest) => DoSpawn(s, requester.tile, Target(s, requester.tile, dest).value)
    case Start(slot) => SetTile(s, slot.tile, Started(s.tiles[slot.tile], slot.idx))
    case Yield(slot) => SetTile(s, slot.tile, Yielded(s.tiles[slot.tile]))
    case Exit(slot) =>
      SetTile(s, slot.tile, Exited(s.tiles[slot.tile], slot.idx)).(alive := s.alive - {At(s, slot).tid})
    case Migrate(tid, to) =>
      var k := FirstIdle(s.tiles[to].threads);
      if k < 0 then s else DoMigrate(s, s.tidMap[tid], Slot(to, k))
  }

  // ---------------------------------------------------------------- what a step changes

  predicate OtherTilesSame(s: State, s': State, t: nat) {
    |s'.tiles| == |s.tiles| && forall i :: 0 <= i < |s.tiles| && i != t ==> s'.tiles[i] == s.tiles[i]
  }

  predicate MapsSame(s: State, s': State) {
    s'.tidMap == s.tidMap && s'.counter == s.counter
  }

  // The tile goes on with these threads and this queue: whoever is now at the front is asked
  // to start if it is new, and runs otherwise.
  predicate GoesOn(threads: seq<Thread>, starting: set<nat>, queue: seq<Request>, tile': Tile) {
    && tile'.queue == queue
    && if queue == [] then tile'.threads == threads && tile'.starting == starting
       else
         var j := queue[0].tidx;
         && j < |threads|
         && if threads[j].status.Initializing? then tile'.threads == threads && tile'.starting == starting + {j}
            else tile'.threads == threads[j := Thread(Running, threads[j].tid)] && tile'.starting == starting
  }

  // A new thread waits behind the others on its tile, and is started at once if all slots
  // there were idle and the request comes from another tile.
  predicate SpawnEffect(s: State, from: nat, slot: Slot, s': State)
    requires IsSlot(s, slot)
  {
    var (tile, tid) := (s.tiles[slot.tile], s.counter + 1);
    var quiet := forall j :: 0 <= j < |tile.threads| ==> tile.threads[j].status.Idle?;
    && OtherTilesSame(s, s', slot.tile)
    && s'.tiles[slot.tile].queue == tile.queue + [Request(slot.idx, tid)]
    && s'.tiles[slot.tile].threads == tile.threads[slot.idx := Thread(Initializing, tid)]
    && s'.tiles[slot.tile].starting ==
         (if from != slot.tile && quiet then tile.starting + {(tile.queue + [Request(slot.idx, tid)])[0].tidx} else tile.starting)
    && s'.tidMap == s.tidMap[tid := slot] && s'.counter == tid && s'.alive == s.alive + {tid}
  }

  predicate StartEffect(s: State, slot: Slot, s': State)
    requires IsSlot(s, slot)
  {
    var tile := s.tiles[slot.tile];
    && OtherTilesSame(s, s', slot.tile) && MapsSame(s, s') && s'.alive == s.alive
    && s'.tiles[slot.tile] ==
         Tile(tile.queue, tile.threads[slot.idx := Thread(Running, tile.threads[slot.idx].tid)], tile.starting - {slot.idx})
  }

  // The front goes to the end of the queue and stalls.
  predicate YieldEffect(s: State, slot: Slot, s': State)
    requires IsSlot(s, slot) && s.tiles[slot.tile].queue != []
  {
    var tile := s.tiles[slot.tile];
    && OtherTilesSame(s, s', slot.tile) && MapsSame(s, s') && s'.alive == s.alive
    && GoesOn(tile.threads[slot.idx := Thread(Stalled, tile.threads[slot.idx].tid)], tile.starting,
              tile.queue[1..] + [tile.queue[0]], s'.tiles[slot.tile])
  }

  // The slot is idle and the front of the queue is gone.
  predicate ExitEffect(s: State, slot: Slot, s': State)
    requires IsSlot(s, slot)
  {
    var (tile, tid) := (s.tiles[slot.tile], At(s, slot).tid);
    && OtherTilesSame(s, s', slot.tile) && MapsSame(s, s') && s'.alive == s.alive - {tid}
    && GoesOn(tile.threads[slot.idx := Thread(Idle, tid)], tile.starting,
              if tile.queue == [] then [] else tile.queue[1..], s'.tiles[slot.tile])
  }

  // The one request for slot j is at p.
  predicate OnlyAt(queue: seq<Request>, j: nat, p: nat) {
    p < |queue| && queue[p].tidx == j && forall l :: 0 <= l < |queue| && l != p ==> queue[l].tidx != j
  }

  predicate Busy(tile: Tile) {
    exists j :: 0 <= j < |tile.threads| && (tile.threads[j].status.Running? || tile.threads[j].status.Initializing?)
  }

  // The request at p and its thread go from src to the end of the queue and to slot k of tile
  // `to`; there the thread goes on at once if and only if nobody runs or is new.
  predicate MigrateEffect(s: State, src: Slot, p: nat, to: nat, k: nat, s': State)
    requires IsSlot(s, src) && IsSlot(s, Slot(to, k)) && src.tile != to && p < |s.tiles[src.tile].queue|
  {
    var (tile, dest, thread) := (s.tiles[src.tile], s.tiles[to], At(s, src));
    var queue := dest.queue + [Request(k, tile.queue[p].tid)];
    && |s'.tiles| == |s.tiles| && (forall i :: 0 <= i < |s.tiles| && i != src.tile && i != to ==> s'.tiles[i] == s.tiles[i])
    && s'.tiles[src.tile] ==
         Tile(tile.queue[..p] + tile.queue[p + 1..], tile.threads[src.idx := Thread(Idle, thread.tid)], tile.starting)
    && s'.tiles[to].queue == queue
    && s'.tiles[to].threads ==
         dest.threads[k := Thread(if !Busy(dest) && !thread.status.Initializing? then Running else thread.status, thread.tid)]
    && s'.tiles[to].starting ==
         (if !Busy(dest) && thread.status.Initializing? then dest.starting + {queue[0].tidx} else dest.starting)
    && s'.tidMap == s.tidMap[thread.tid := Slot(to, k)] && s'.counter == s.counter && s'.alive == s.alive
  }

  predicate FirstIdleAt(tile: Tile, k: nat) {
    && k < |tile.threads| && tile.threads[k].status.Idle?
    && forall j :: 0 <= j < k ==> !tile.threads[j].status.Idle?
  }

  // What each step does, in terms of queues, slots, start requests, map and counter alone.
  ghost predicate Effect(s: State, step: Step, s': State)
    requires Enabled(s, step)
  {
    match step
    case Spawn(requester, dest) => SpawnEffect(s, requester.tile, Target(s, requester.tile, dest).value, s')
    case Start(slot) => StartEffect(s, slot, s')
    case Yield(slot) => YieldEffect(s, slot, s')
    case Exit(slot) => ExitEffect(s, slot, s')
    case Migrate(tid, to) =>
      if !Any(s.tiles[to].threads, Idle) then s' == s
      else forall p: nat, k: nat :: OnlyAt(s.tiles[s.tidMap[tid].tile].queue, s.tidMap[tid].idx, p) && FirstIdleAt(s.tiles[to], k) ==>
        MigrateEffect(s, s.tidMap[tid], p, to, k, s')
  }

  lemma {:induction false} SpawnHasEffect(s: State, from: nat, slot: Slot)
    requires Shape(s) && IsSlot(s, slot) && At(s, slot).status.Idle?
    ensures SpawnEffect(s, from, slot, DoSpawn(s, from, slot))
  {
    var (tile, tid) := (s.tiles[slot.tile], s.counter + 1);
    var named := Named(tile, slot.idx, tid);
    var quiet := !Any(named.threads, Running) && !Any(named.threads, Initializing) && !Any(named.threads, Stalled);
    assert quiet <==> forall j :: 0 <= j < |tile.threads| ==> tile.threads[j].status.Idle? by {
      forall j | 0 <= j < |tile.threads| && quiet ensures tile.threads[j].status.Idle? {
        assert named.threads[j].status == tile.threads[j].status;
      }
      forall j | 0 <= j < |tile.threads| ensures named.threads[j].status == tile.threads[j].status {}
    }
  }

  lemma {:induction false} OnlyWithout(queue: seq<Request>, j: nat, p: nat)
    requires OnlyAt(queue, j, p)
    ensures Queued(queue, j) && Found(queue, j) == queue[p] && Without(queue, j) == queue[..p] + queue[p + 1..]
    decreases |queue|
  {
    var (n, rest) := (|queue| - 1, queue[..|queue| - 1]);
    assert queue[p].tidx == j;
    if p == n {
      assert !Queued(rest, j);
      WithoutOthers(rest, j);
      assert queue[p + 1..] == [];
    } else {
      OnlyWithout(rest, j, p);
      assert queue[p + 1..] == rest[p + 1..] + [queue[n]] && queue[..p] == rest[..p];
    }
  }

  lemma {:induction false} MigrateHasEffect(s: State, src: Slot, p: nat, to: nat, k: nat)
    requires Shape(s) && IsSlot(s, src) && IsSlot(s, Slot(to, k)) && src.tile != to && OnlyAt(s.tiles[src.tile].queue, src.idx, p)
    requires At(s, src).status.Initializing? || At(s, src).status.Stalled?
    ensures Queued(s.tiles[src.tile].queue, src.idx) && MigrateEffect(s, src, p, to, k, DoMigrate(s, src, Slot(to, k)))
  {
    var (tile, dest, thread) := (s.tiles[src.tile], s.tiles[to], At(s, src));
    OnlyWithout(tile.queue, src.idx, p);
    var r := Request(k, tile.queue[p].tid);
    assert tile.queue[p].(tidx := k) == r;
    assert Busy(dest) <==> Any(dest.threads, Running) || Any(dest.threads, Initializing);
    var here := dest.threads[k := thread];
    assert here[k := thread.(status := Running)] == dest.threads[k := Thread(Running, thread.tid)];
    var s' := DoMigrate(s, src, Slot(to, k));
    assert s'.tiles[src.tile] == Removed(tile, src.idx);
    assert s'.tiles[to] == Arrived(dest, k, thread, tile.queue[p]);
  }

  lemma {:induction false} StepHasEffect(s: State, step: Step)
    requires Enabled(s, step)
    ensures Effect(s, step, Do(s, step))
  {
    match step
    case Spawn(requester, dest) => {
      SpawnHasEffect(s, requester.tile, Target(s, requester.tile, dest).value);
    }
    case Start(slot) => {}
    case Yield(slot) => {}
    case Exit(slot) => {}
    case Migrate(tid, to) => {
      var (src, first) := (s.tidMap[tid], FirstIdle(s.tiles[to].threads));
      if first >= 0 {
        assert s.tiles[to].threads[first].status == Idle;
        forall p: nat, k: nat | OnlyAt(s.tiles[src.tile].queue, src.idx, p) && FirstIdleAt(s.tiles[to], k)
          ensures MigrateEffect(s, src, p, to, k, Do(s, step))
        {
          assert k == first;
          MigrateHasEffect(s, src, p, to, k);
        }
      }
    }
  }

  // ---------------------------------------------------------------- the run invariant over all steps

  predicate RunInv(s: State) {
    Shape(s) && forall t :: 1 <= t < |s.tiles| ==> TileInv(s.tiles[t])
  }

  lemma {:induction false} OneTile(s: State, t: nat, tile: Tile)
    requires RunInv(s) && 1 <= t < |s.tiles| && |tile.threads| == |s.tiles[t].threads|
    ensures RunInv(SetTile(s, t, tile)) <==> TileInv(tile)
  {
    var s' := SetTile(s, t, tile);
    assert s'.tiles[t] == tile;
    forall i | 0 <= i < |s'.tiles| && i != t ensures s'.tiles[i] == s.tiles[i] {}
  }

  lemma {:induction false} StepKeepsRun(s: State, step: Step)
    requires RunInv(s) && Enabled(s, step) && !step.Migrate?
    ensures RunInv(Do(s, step))
  {
    match step
    case Spawn(requester, dest) => {
      SpawnKeepsRun(s, requester, Target(s, requester.tile, dest).value);
    }
    case Start(slot) => {
      StartKeepsInv(s.tiles[slot.tile], slot.idx);
      OneTile(s, slot.tile, Started(s.tiles[slot.tile], slot.idx));
    }
    case Yield(slot) => {
      YieldKeepsInv(s.tiles[slot.tile], slot.idx);
      OneTile(s, slot.tile, Yielded(s.tiles[slot.tile]));
    }
    case Exit(slot) => {
      ExitKeepsInv(s.tiles[slot.tile], slot.idx);
      OneTile(s, slot.tile, Exited(s.tiles[slot.tile], slot.idx));
    }
  }

  lemma {:induction false} SpawnKeepsRun(s: State, requester: Slot, slot: Slot)
    requires RunInv(s) && IsSlot(s, requester) && At(s, requester).status.Running?
    requires slot.tile >= 1 && IsSlot(s, slot) && At(s, slot).status.Idle?
    ensures RunInv(DoSpawn(s, requester.tile, slot))
  {
    var (tile, tid, alone) := (s.tiles[slot.tile], s.counter + 1, requester.tile != slot.tile);
    SpawnKeepsTile(tile, slot.idx, tid, alone, requester.idx);
    OneTile(s, slot.tile, Add(Named(tile, slot.idx, tid), Request(slot.idx, tid), alone));
  }

  lemma {:induction false} SpawnKeepsTile(tile: Tile, j: nat, tid: int, alone: bool, requester: nat)
    requires TileInv(tile) && j < |tile.threads| && tile.threads[j].status.Idle?
    requires !alone ==> requester < |tile.threads| && tile.threads[requester].status.Running?
    ensures TileInv(Add(Named(tile, j, tid), Request(j, tid), alone))
  {
    NamedInv(tile, j, tid);
    if !alone {
      FrontRuns(tile, requester);
    }
    AddKeepsInv(Named(tile, j, tid), Request(j, tid), alone);
  }

  lemma {:induction false} NamedInv(tile: Tile, j: nat, tid: int)
    requires TileInv(tile) && j < |tile.threads|
    ensures TileInv(Named(tile, j, tid))
  {
    var r := Named(tile, j, tid);
    forall k | 1 <= k < |r.queue| ensures Waiting(r, r.queue[k].tidx) {
      assert Waiting(tile, tile.queue[k].tidx);
    }
  }

  // A migration keeps the run queues in order if and only if it does not take a
  // thread that is just being started.
  lemma {:induction false} MigrateKeepsRun(s: State, tid: int, to: nat)
    requires RunInv(s) && Enabled(s, Migrate(tid, to)) && FirstIdle(s.tiles[to].threads) >= 0
    ensures RunInv(Do(s, Migrate(tid, to))) <==> !BeingStarted(s.tiles[s.tidMap[tid].tile], s.tidMap[tid].idx)
  {
    var (src, k) := (s.tidMap[tid], FirstIdle(s.tiles[to].threads));
    var (removed, arrived) := (Removed(s.tiles[src.tile], src.idx),
                               Arrived(s.tiles[to], k, At(s, src), Found(s.tiles[src.tile].queue, src.idx)));
    RemoveKeepsInv(s.tiles[src.tile], src.idx);
    ArriveKeepsInv(s.tiles[to], k, At(s, src), Found(s.tiles[src.tile].queue, src.idx));
    var s' := Do(s, Migrate(tid, to));
    assert s'.tiles[src.tile] == removed && s'.tiles[to] == arrived;
    forall i | 0 <= i < |s'.tiles| && i != src.tile && i != to ensures s'.tiles[i] == s.tiles[i] {}
  }

  // ---------------------------------------------------------------- the tid map over all runs

  // A slot that holds a thread, or that a request is queued for.
  predicate Claimed(tile: Tile, j: nat)
    requires j < |tile.threads|
  {
    !tile.threads[j].status.Idle? || Queued(tile.queue, j)
  }

  // The map names this slot for the slot's tid.
  predicate Own(tidMap: map<int, Slot>, slot: Slot, thread: Thread) {
    thread.tid in tidMap && tidMap[thread.tid] == slot
  }

  predicate TileTids(tidMap: map<int, Slot>, t: nat, tile: Tile) {
    forall j: nat :: j < |tile.threads| && Claimed(tile, j) ==> Own(tidMap, Slot(t, j), tile.threads[j])
  }

  predicate Findable(s: State, tid: int) {
    && tid in s.tidMap && s.tidMap[tid].tile >= 1 && IsSlot(s, s.tidMap[tid])
    && At(s, s.tidMap[tid]).tid == tid && !At(s, s.tidMap[tid]).status.Idle?
  }

  // Every slot that holds a thread is the one the map names for its tid, and every
  // thread that was spawned and has not exited is where the map says.
  predicate TidInv(s: State) {
    && Shape(s)
    && (forall t :: 1 <= t < |s.tiles| ==> TileTids(s.tidMap, t, s.tiles[t]))
    && (forall tid :: tid in s.alive ==> Findable(s, tid))
    && (forall tid :: tid in s.tidMap ==> tid <= s.counter)
  }

  // A tile changes without new claims and without new tids.
  predicate Calm(tile: Tile, tile': Tile) {
    && |tile'.threads| == |tile.threads| && InRange(tile')
    && forall j: nat :: j < |tile.threads| ==>
         tile'.threads[j].tid == tile.threads[j].tid && (Claimed(tile', j) ==> Claimed(tile, j))
  }

  lemma {:induction false} CalmKeepsTids(s: State, t: nat, tile': Tile, gone: set<int>)
    requires TidInv(s) && 1 <= t < |s.tiles| && Calm(s.tiles[t], tile')
    requires forall j: nat :: j < |tile'.threads| && tile'.threads[j].status.Idle? && !s.tiles[t].threads[j].status.Idle?
               ==> tile'.threads[j].tid in gone
    ensures TidInv(SetTile(s, t, tile').(alive := s.alive - gone))
  {
    var s' := SetTile(s, t, tile').(alive := s.alive - gone);
    forall i | 1 <= i < |s'.tiles| ensures TileTids(s'.tidMap, i, s'.tiles[i]) {
      assert TileTids(s.tidMap, i, s.tiles[i]);
    }
    forall tid | tid in s'.alive ensures Findable(s', tid) {
      assert Findable(s, tid);
    }
  }

  lemma {:induction false} RunFrontCalm(tile: Tile)
    requires FrontOk(tile) && InRange(tile)
    ensures Calm(tile, RunFront(tile))
    ensures forall j: nat :: j < |tile.threads| && !tile.threads[j].status.Idle? ==> !RunFront(tile).threads[j].status.Idle?
  {
    assert Queued(tile.queue, tile.queue[0].tidx);
  }

  lemma {:induction false} QueuedPart(queue: seq<Request>, part: seq<Request>, j: nat)
    requires forall k :: 0 <= k < |part| ==> part[k] in queue
    ensures Queued(part, j) ==> Queued(queue, j)
  {
    if Queued(part, j) {
      var k :| 0 <= k < |part| && part[k].tidx == j;
      var l :| 0 <= l < |queue| && queue[l] == part[k];
      assert queue[l].tidx == j;
    }
  }

  lemma {:induction false} ExitCalm(tile: Tile, i: nat)
    requires InRange(tile) && i < |tile.threads|
    ensures Calm(tile, Exited(tile, i))
    ensures forall j: nat :: j < |tile.threads| && j != i && !tile.threads[j].status.Idle? ==> !Exited(tile, i).threads[j].status.Idle?
  {
    var idle := SetStatus(tile, i, Idle);
    if tile.queue != [] {
      var popped := idle.(queue := idle.queue[1..]);
      forall j: nat ensures Queued(popped.queue, j) ==> Queued(tile.queue, j) {
        QueuedPart(tile.queue, popped.queue, j);
      }
      if popped.queue != [] {
        RunFrontCalm(popped);
      }
    }
  }

  lemma {:induction false} YieldCalm(tile: Tile)
    requires InRange(tile) && tile.queue != []
    ensures Calm(tile, Yielded(tile))
    ensures forall j: nat :: j < |tile.threads| && !tile.threads[j].status.Idle? ==> !Yielded(tile).threads[j].status.Idle?
  {
    var front := tile.queue[0].tidx;
    assert Queued(tile.queue, front);
    var r := SetStatus(tile, front, Stalled).(queue := Rotated(tile.queue));
    forall j: nat ensures Queued(r.queue, j) ==> Queued(tile.queue, j) {
      QueuedPart(tile.queue, r.queue, j);
    }
    RunFrontCalm(r);
  }

  lemma {:induction false} SpawnKeepsTids(s: State, from: nat, slot: Slot)
    requires TidInv(s) && slot.tile >= 1 && IsSlot(s, slot) && At(s, slot).status.Idle?
    ensures TidInv(DoSpawn(s, from, slot))
  {
    var (s', tid, tile) := (DoSpawn(s, from, slot), s.counter + 1, s.tiles[slot.tile]);
    forall i | 1 <= i < |s'.tiles| ensures TileTids(s'.tidMap, i, s'.tiles[i]) {
      assert TileTids(s.tidMap, i, s.tiles[i]);
      if i == slot.tile {
        forall j: nat | j < |tile.threads| && j != slot.idx && Claimed(s'.tiles[i], j) ensures Claimed(tile, j) {
          QueuedAppend(tile.queue, Request(slot.idx, tid), j);
        }
      }
    }
    forall id | id in s'.alive ensures Findable(s', id) {
      if id != tid {
        assert Findable(s, id);
      }
    }
  }

  lemma {:induction false} MigrateKeepsTids(s: State, src: Slot, dst: Slot)
    requires TidInv(s) && IsSlot(s, src) && IsSlot(s, dst) && src.tile >= 1 && dst.tile >= 1 && src.tile != dst.tile
    requires Queued(s.tiles[src.tile].queue, src.idx)
    requires !At(s, src).status.Idle? && At(s, dst).status.Idle?
    ensures TidInv(DoMigrate(s, src, dst))
  {
    var s' := DoMigrate(s, src, dst);
    assert TileTids(s.tidMap, src.tile, s.tiles[src.tile]) && TileTids(s.tidMap, dst.tile, s.tiles[dst.tile]);
    MigrateShape(s, src, dst);
    MigrateSource(s, src, dst);
    MigrateDest(s, src, dst);
    forall i | 1 <= i < |s'.tiles| ensures TileTids(s'.tidMap, i, s'.tiles[i]) {
      assert TileTids(s.tidMap, i, s.tiles[i]);
    }
    forall id | id in s'.alive ensures Findable(s', id) {
      assert Findable(s, id);
    }
  }

  lemma {:induction false} WithoutPart(queue: seq<Request>, j: nat, r: Request)
    requires r in Without(queue, j)
    ensures r in queue && r.tidx != j
    decreases |queue|
  {
    var (rest, last) := (queue[..|queue| - 1], queue[|queue| - 1]);
    if r in Without(rest, j) {
      WithoutPart(rest, j, r);
    }
  }

  lemma {:induction false} QueuedWithoutAll(queue: seq<Request>, i: nat, j: nat)
    ensures Queued(Without(queue, i), j) ==> Queued(queue, j) && j != i
  {
    if Queued(Without(queue, i), j) {
      var k :| 0 <= k < |Without(queue, i)| && Without(queue, i)[k].tidx == j;
      WithoutPart(queue, i, Without(queue, i)[k]);
      var l :| 0 <= l < |queue| && queue[l] == Without(queue, i)[k];
      assert queue[l].tidx == j;
    }
  }

  lemma {:induction false} MigrateShape(s: State, src: Slot, dst: Slot)
    requires Shape(s) && IsSlot(s, src) && IsSlot(s, dst) && src.tile != dst.tile
    requires Queued(s.tiles[src.tile].queue, src.idx)
    ensures Shape(DoMigrate(s, src, dst))
  {
    var s' := DoMigrate(s, src, dst);
    var q := s'.tiles[src.tile].queue;
    forall k | 0 <= k < |q| ensures q[k].tidx < |s'.tiles[src.tile].threads| {
      WithoutPart(s.tiles[src.tile].queue, src.idx, q[k]);
    }
  }

  // The source slot claims nothing any more.
  lemma {:induction false} MigrateSource(s: State, src: Slot, dst: Slot)
    requires Shape(s) && IsSlot(s, src) && IsSlot(s, dst) && src.tile != dst.tile
    requires Queued(s.tiles[src.tile].queue, src.idx) && !At(s, src).status.Idle?
    requires TileTids(s.tidMap, src.tile, s.tiles[src.tile])
    ensures var s' := DoMigrate(s, src, dst); TileTids(s'.tidMap, src.tile, s'.tiles[src.tile])
  {
    var s' := DoMigrate(s, src, dst);
    var (tile, tile') := (s.tiles[src.tile], s'.tiles[src.tile]);
    forall j: nat | j < |tile'.threads| && Claimed(tile', j) ensures Own(s'.tidMap, Slot(src.tile, j), tile'.threads[j]) {
      QueuedWithoutAll(tile.queue, src.idx, j);
      assert j != src.idx && Claimed(tile, j);
      assert Own(s.tidMap, Slot(src.tile, j), tile.threads[j]);
    }
  }

  // The destination slot takes the tid over.
  lemma {:induction false} MigrateDest(s: State, src: Slot, dst: Slot)
    requires Shape(s) && IsSlot(s, src) && IsSlot(s, dst) && src.tile != dst.tile
    requires Queued(s.tiles[src.tile].queue, src.idx) && !At(s, src).status.Idle?
    requires TileTids(s.tidMap, src.tile, s.tiles[src.tile]) && TileTids(s.tidMap, dst.tile, s.tiles[dst.tile])
    ensures var s' := DoMigrate(s, src, dst); TileTids(s'.tidMap, dst.tile, s'.tiles[dst.tile])
  {
    var s' := DoMigrate(s, src, dst);
    var (tile, tile') := (s.tiles[dst.tile], s'.tiles[dst.tile]);
    assert Own(s.tidMap, src, At(s, src));
    var req := Found(s.tiles[src.tile].queue, src.idx).(tidx := dst.idx);
    forall j: nat | j < |tile'.threads| && Claimed(tile', j) ensures Own(s'.tidMap, Slot(dst.tile, j), tile'.threads[j]) {
      QueuedAppend(tile.queue, req, j);
      if j != dst.idx {
        assert Claimed(tile, j) && Own(s.tidMap, Slot(dst.tile, j), tile.threads[j]);
      }
    }
  }

  lemma {:induction false} StepKeepsTids(s: State, step: Step)
    requires TidInv(s) && Enabled(s, step)
    ensures TidInv(Do(s, step))
  {
    match step
    case Spawn(requester, dest) => SpawnKeepsTids(s, requester.tile, Target(s, requester.tile, dest).value);
    case Start(slot) => CalmKeepsTids(s, slot.tile, Started(s.tiles[slot.tile], slot.idx), {});
    case Yield(slot) => {
      YieldCalm(s.tiles[slot.tile]);
      CalmKeepsTids(s, slot.tile, Yielded(s.tiles[slot.tile]), {});
    }
    case Exit(slot) => {
      ExitCalm(s.tiles[slot.tile], slot.idx);
      CalmKeepsTids(s, slot.tile, Exited(s.tiles[slot.tile], slot.idx), {At(s, slot).tid});
    }
    case Migrate(tid, to) => {
      var k := FirstIdle(s.tiles[to].threads);
      if k >= 0 {
        MigrateKeepsTids(s, s.tidMap[tid], Slot(to, k));
      }
    }
  }

  // ---------------------------------------------------------------- runs

  // n application tiles of k slots each; the main thread runs on tile 0.
  predicate Init(s: State, n: nat, k: nat) {
    && |s.tiles| == n && n >= 1 && k >= 1 && s.tidMap == map[] && s.counter == 0 && s.alive == {}
    && (forall t :: 0 <= t < n ==> s.tiles[t].queue == [] && s.tiles[t].starting == {} && |s.tiles[t].threads| == k)
    && (forall t, j :: 0 <= t < n && 0 <= j < k && (t != 0 || j != 0) ==> s.tiles[t].threads[j].status.Idle?)
    && s.tiles[0].threads[0].status.Running?
  }

  predicate Run(states: seq<State>, steps: seq<Step>) {
    && |states| == |steps| + 1
    && forall i :: 0 <= i < |steps| ==> Taken(states, steps, i)
  }

  predicate Taken(states: seq<State>, steps: seq<Step>, i: nat)
    requires i < |steps| && |states| == |steps| + 1
  {
    Enabled(states[i], steps[i]) && states[i + 1] == Do(states[i], steps[i])
  }

  // The step does not take away a thread that is being started.  A migration that finds
  // no idle slot takes nothing.
  predicate Careful(s: State, step: Step) {
    step.Migrate? && step.to < |s.tiles| && FirstIdle(s.tiles[step.to].threads) >= 0 ==>
      step.tid in s.tidMap && s.tidMap[step.tid].tile < |s.tiles| &&
      !BeingStarted(s.tiles[s.tidMap[step.tid].tile], s.tidMap[step.tid].idx)
  }

  // Whatever the order of spawns, starts, yields, exits and migrations: queues list
  // exactly the threads that are not idle, and only the front one runs or starts.
  lemma {:induction false} RunsInOrder(states: seq<State>, steps: seq<Step>, n: nat, k: nat, i: nat)
    requires Run(states, steps) && Init(states[0], n, k) && i < |states|
    requires forall l :: 0 <= l < i ==> Careful(states[l], steps[l])
    ensures RunInv(states[i])
  {
    if i == 0 {
      forall t | 1 <= t < n ensures TileInv(states[0].tiles[t]) {
        forall j | 0 <= j < k ensures !Queued(states[0].tiles[t].queue, j) {}
      }
    } else {
      RunsInOrder(states, steps, n, k, i - 1);
      assert Taken(states, steps, i - 1);
      var (s, step) := (states[i - 1], steps[i - 1]);
      if !step.Migrate? {
        StepKeepsRun(s, step);
      } else if FirstIdle(s.tiles[step.to].threads) >= 0 {
        assert Careful(s, step);
        MigrateKeepsRun(s, step.tid, step.to);
      }
    }
  }

  // Over any run at all, the map leads to every thread that is alive, and no two
  // slots hold threads of the same tid.
  lemma {:induction false} RunsFindThreads(states: seq<State>, steps: seq<Step>, n: nat, k: nat, i: nat)
    requires Run(states, steps) && Init(states[0], n, k) && i < |states|
    ensures TidInv(states[i])
  {
    if i == 0 {
      forall t | 1 <= t < n ensures TileTids(states[0].tidMap, t, states[0].tiles[t]) {
        forall j | 0 <= j < k ensures !Queued(states[0].tiles[t].queue, j) {}
      }
    } else {
      RunsFindThreads(states, steps, n, k, i - 1);
      assert Taken(states, steps, i - 1);
      StepKeepsTids(states[i - 1], steps[i - 1]);
    }
  }

  // Where the one request for a slot that holds a thread is.
  lemma {:induction false} RequestAt(tile: Tile, j: nat) returns (p: nat)
    requires TileInv(tile) && j < |tile.threads| && !tile.threads[j].status.Idle?
    ensures OnlyAt(tile.queue, j, p)
  {
    assert Queued(tile.queue, j);
    p :| p < |tile.queue| && tile.queue[p].tidx == j;
  }

  lemma {:induction false} NobodyThere(tile: Tile, k: nat)
    requires TileInv(tile) && k < |tile.threads| && tile.threads[k].status.Idle?
    ensures !Busy(tile) ==> tile.queue == []
    ensures k !in tile.starting
  {
    if tile.queue != [] {
      var j := tile.queue[0].tidx;
      assert tile.threads[j].status.Running? || tile.threads[j].status.Initializing?;
    }
    assert !Queued(tile.queue, k);
  }

  // In every run that has been careful so far, a migration of a thread that is alive to a tile
  // with an idle slot k moves its request and its state there: the map leads to the new
  // slot, and the thread runs or is being started there if and only if nobody was.
  lemma {:induction false} RunsMigrate(states: seq<State>, steps: seq<Step>, n: nat, m: nat, i: nat, k: nat) returns (p: nat)
    requires Run(states, steps) && Init(states[0], n, m) && i < |steps| && steps[i].Migrate? && steps[i].tid in states[i].alive
    requires forall l :: 0 <= l < i ==> Careful(states[l], steps[l])
    requires 1 <= steps[i].to < |states[i].tiles| && FirstIdleAt(states[i].tiles[steps[i].to], k)
    ensures var (s, s', tid, to) := (states[i], states[i + 1], steps[i].tid, steps[i].to);
      && tid in s.tidMap && IsSlot(s, s.tidMap[tid]) && s.tidMap[tid].tile != to
      && OnlyAt(s.tiles[s.tidMap[tid].tile].queue, s.tidMap[tid].idx, p)
      && MigrateEffect(s, s.tidMap[tid], p, to, k, s')
      && tid in s'.tidMap && s'.tidMap[tid] == Slot(to, k) && At(s', Slot(to, k)).tid == tid
      && ((At(s', Slot(to, k)).status.Running? || k in s'.tiles[to].starting) <==> !Busy(s.tiles[to]))
  {
    var (s, tid, to) := (states[i], steps[i].tid, steps[i].to);
    RunsInOrder(states, steps, n, m, i);
    RunsFindThreads(states, steps, n, m, i);
    assert Taken(states, steps, i);
    assert Findable(s, tid);
    assert s.tiles[to].threads[k].status == Idle;
    p := RequestAt(s.tiles[s.tidMap[tid].tile], s.tidMap[tid].idx);
    NobodyThere(s.tiles[to], k);
    StepHasEffect(s, steps[i]);
  }

  lemma {:induction false} UniqueSlot(s: State, a: Slot, b: Slot)
    requires TidInv(s) && a.tile >= 1 && b.tile >= 1 && IsSlot(s, a) && IsSlot(s, b)
    requires !At(s, a).status.Idle? && !At(s, b).status.Idle? && At(s, a).tid == At(s, b).tid
    ensures a == b && At(s, a).tid in s.tidMap && s.tidMap[At(s, a).tid] == a
  {
    assert TileTids(s.tidMap, a.tile, s.tiles[a.tile]) && TileTids(s.tidMap, b.tile, s.tiles[b.tile]);
    assert Claimed(s.tiles[a.tile], a.idx) && Claimed(s.tiles[b.tile], b.idx);
  }

  const MAIN := Tile([], [Thread(Running, -1)], {})
  const UNUSED := Tile([], [Thread(Idle, -1)], {})

  // Three tiles of one slot each at the start, and with a thread spawned on tile 1
  const BEFORE := State([MAIN, UNUSED, UNUSED], map[], 0, {})
  const SPAWNED := State([MAIN, Tile([Request(0, 1)], [Thread(Initializing, 1)], {0}), UNUSED], map[1 := Slot(1, 0)], 1, {1})

  lemma {:induction false} SpawnedOne()
    ensures Enabled(BEFORE, Spawn(Slot(0, 0), 1)) && Do(BEFORE, Spawn(Slot(0, 0), 1)) == SPAWNED && Init(BEFORE, 3, 1)
  {
    assert FirstIdle(BEFORE.tiles[1].threads) == 0;
    var d := Do(BEFORE, Spawn(Slot(0, 0), 1));
    assert d.tiles[1].queue == [Request(0, 1)] && d.tiles[1].threads == [Thread(Initializing, 1)] && d.tiles[1].starting == {0};
    assert d.tiles == SPAWNED.tiles;
  }

  lemma {:induction false} MigratedOne()
    ensures RunInv(SPAWNED) && Enabled(SPAWNED, Migrate(1, 2)) && !RunInv(Do(SPAWNED, Migrate(1, 2)))
  {
    var s := SPAWNED;
    assert s.tiles[1].queue[0].tidx == 0;
    assert Queued(s.tiles[1].queue, 0) && !Queued(s.tiles[2].queue, 0);
    assert FirstIdle(s.tiles[2].threads) == 0;
    MigrateKeepsRun(s, 1, 2);
  }

  lemma {:induction false} TwoSteps(s: State, r: State, step1: Step, step2: Step, n: nat, k: nat)
    returns (states: seq<State>, steps: seq<Step>)
    requires Enabled(s, step1) && r == Do(s, step1) && Enabled(r, step2)
    requires Init(s, n, k) && RunInv(r) && !RunInv(Do(r, step2))
    ensures Run(states, steps) && Init(states[0], n, k) && steps == [step1, step2]
    ensures RunInv(states[1]) && !RunInv(states[2])
  {
    states, steps := [s, r, Do(r, step2)], [step1, step2];
    assert Taken(states, steps, 0) && Taken(states, steps, 1);
  }

  // A thread is spawned on tile 1 and sent to tile 2 before it has started: its start
  // request is then on its way to a slot that is idle.
  lemma {:induction false} MigrateWhileStarting() returns (states: seq<State>, steps: seq<Step>)
    ensures Run(states, steps) && Init(states[0], 3, 1) && steps == [Spawn(Slot(0, 0), 1), Migrate(1, 2)]
    ensures RunInv(states[1]) && !RunInv(states[2])
  {
    SpawnedOne();
    MigratedOne();
    states, steps := TwoSteps(BEFORE, SPAWNED, Spawn(Slot(0, 0), 1), Migrate(1, 2), 3, 1);
  }

  // ---------------------------------------------------------------- the master

  class Master {
    var tiles: seq<Tile>
    var tidToCore: map<int, Slot>
    var tidCounter: nat
    ghost var alive: set<int>

    ghost function Value(): State
      reads this
    {
      State(tiles, tidToCore, tidCounter, alive)
    }

    method GetIdleThread(t: nat) returns (idx: int)
      requires t < |tiles|
      ensures idx == FirstIdle(tiles[t].threads)
    {
      var ts := tiles[t].threads;
      for j := 0 to |ts|
        invariant FirstIdle(ts) == if FirstIdle(ts[j..]) < 0 then -1 else FirstIdle(ts[j..]) + j
      {
        if ts[j].status.Idle? {
          return j;
        }
        assert ts[j..][1..] == ts[j + 1..];
      }
      return -1;
    }

    // isCoreRunning, isCoreInitializing, isCoreStalled
    method IsCore(t: nat, status: Status) returns (found: bool)
      requires t < |tiles|
      ensures found == Any(tiles[t].threads, status)
    {
      var ts := tiles[t].threads;
      for j := 0 to |ts|
        invariant forall i :: 0 <= i < j ==> ts[i].status != status
      {
        if ts[j].status == status {
          return true;
        }
      }
      return false;
    }

    method SetState(t: nat, j: nat, status: Status)
      requires t < |tiles| && j < |tiles[t].threads|
      modifies `tiles
      ensures tiles == old(tiles)[t := SetStatus(old(tiles[t]), j, status)]
    {
      var tile := tiles[t];
      tiles := tiles[t := tile.(threads := tile.threads[j := tile.threads[j].(status := status)])];
    }

    method MasterStartThread(t: nat)
      requires t < |tiles| && FrontOk(tiles[t])
      modifies `tiles
      ensures tiles == old(tiles)[t := StartFront(old(tiles[t]))]
    {
      var req := tiles[t].queue[0];
      tiles := tiles[t := tiles[t].(starting := tiles[t].starting + {req.tidx})];
    }

    // The end of masterOnThreadExit and masterYieldThread.
    method RunNext(t: nat)
      requires t < |tiles| && FrontOk(tiles[t])
      modifies `tiles
      ensures tiles == old(tiles)[t := RunFront(old(tiles[t]))]
    {
      var next := tiles[t].queue[0].tidx;
      if tiles[t].threads[next].status.Initializing? {
        MasterStartThread(t);
      } else {
        SetState(t, next, Running);
      }
    }

    method MasterScheduleThread(from: nat, t: nat, req: Request)
      requires t < |tiles| && InRange(tiles[t]) && req.tidx < |tiles[t].threads|
      modifies `tiles
      ensures tiles == old(tiles)[t := Add(old(tiles[t]), req, from != t)]
    {
      var startable := false;
      tiles := tiles[t := tiles[t].(queue := tiles[t].queue + [req])];
      if from != t {
        var running := IsCore(t, Running);
        if !running {
          var initializing := IsCore(t, Initializing);
          var stalled := IsCore(t, Stalled);
          startable := !initializing && !stalled;
        }
      }
      SetState(t, req.tidx, Initializing);
      if startable {
        MasterStartThread(t);
      }
    }

    // The two loops of masterSpawnThread when no tile is asked for.
    method FindSlot(from: nat) returns (slot: Option<Slot>)
      requires Shape(Value())
      ensures slot == Pick(Value(), from, |tiles[0].threads|)
      ensures slot.None? <==> AllOccupied(Value(), 0, |tiles[0].threads|)
      ensures slot.Some? ==> slot.value.idx < |tiles[0].threads| && Nearest(Value(), from, slot.value)
      ensures slot.Some? ==> AllOccupied(Value(), slot.value.idx + 1, |tiles[0].threads|)
    {
      PickExact(Value(), from, |tiles[0].threads|);
      slot := None;
      for j := 0 to |tiles[0].threads|
        invariant slot == Pick(Value(), from, j)
      {
        var i := 1;
        var found := -1;
        while i <= |tiles| && found < 0
          invariant i >= 1
          invariant FreeTile(Value(), from, j, 1) == if found >= 0 then found else FreeTile(Value(), from, j, i)
          decreases |tiles| + 1 - i, found < 0
        {
          var t := TileAfter(|tiles|, from, i);
          if t != 0 && tiles[t].threads[j].status.Idle? {
            found := t;
          } else {
            i := i + 1;
          }
        }
        if found >= 0 {
          slot := Some(Slot(found, j));
        }
      }
    }

    // masterSpawnThread and getNewThreadId; without a free slot the program stops.
    method MasterSpawnThread(requester: Slot, dest: int) returns (ok: bool)
      requires Shape(Value()) && IsSlot(Value(), requester) && At(Value(), requester).status.Running?
      requires dest == -1 || 1 <= dest < |tiles|
      modifies this
      ensures ok == old(Target(Value(), requester.tile, dest).Some?)
      ensures !ok <==> old(if dest == -1 then AllOccupied(Value(), 0, |tiles[0].threads|)
                           else forall j :: 0 <= j < |tiles[dest].threads| ==> !tiles[dest].threads[j].status.Idle?)
      ensures ok ==> Value() == Do(old(Value()), Spawn(requester, dest)) && Effect(old(Value()), Spawn(requester, dest), Value())
      ensures !ok ==> Value() == old(Value())
    {
      var target;
      if dest == -1 {
        target := FindSlot(requester.tile);
      } else {
        var idx := GetIdleThread(dest);
        target := if idx < 0 then None else Some(Slot(dest, idx));
      }
      if target.None? {
        return false;
      }
      StepHasEffect(Value(), Spawn(requester, dest));
      SpawnAt(requester, target.value);
      return true;
    }

    method SpawnAt(requester: Slot, slot: Slot)
      requires Shape(Value()) && IsSlot(Value(), requester) && At(Value(), requester).status.Running?
      requires IsSlot(Value(), slot) && At(Value(), slot).status.Idle?
      modifies this
      ensures Value() == DoSpawn(old(Value()), requester.tile, slot)
    {
      SetState(requester.tile, requester.idx, Stalled);
      tidCounter := tidCounter + 1;
      tidToCore := tidToCore[tidCounter := slot];
      alive := alive + {tidCounter};
      var tile := tiles[slot.tile];
      tiles := tiles[slot.tile := tile.(threads := tile.threads[slot.idx := tile.threads[slot.idx].(tid := tidCounter)])];
      MasterScheduleThread(requester.tile, slot.tile, Request(slot.idx, tidCounter));
      SetState(requester.tile, requester.idx, Running);
      StallAndResume(old(Value()), requester, slot, tiles);
    }

    method MasterOnThreadStart(slot: Slot)
      requires Enabled(Value(), Start(slot))
      modifies this
      ensures Value() == Do(old(Value()), Start(slot)) && Effect(old(Value()), Start(slot), Value())
    {
      StepHasEffect(Value(), Start(slot));
      SetState(slot.tile, slot.idx, Running);
      tiles := tiles[slot.tile := tiles[slot.tile].(starting := tiles[slot.tile].starting - {slot.idx})];
    }

    method MasterOnThreadExit(slot: Slot)
      requires Enabled(Value(), Exit(slot))
      modifies this
      ensures Value() == Do(old(Value()), Exit(slot)) && Effect(old(Value()), Exit(slot), Value())
    {
      StepHasEffect(Value(), Exit(slot));
      alive := alive - {tiles[slot.tile].threads[slot.idx].tid};
      var t := slot.tile;
      SetState(t, slot.idx, Idle);
      if tiles[t].queue != [] {
        tiles := tiles[t := tiles[t].(queue := tiles[t].queue[1..])];
      }
      if tiles[t].queue != [] {
        RunNext(t);
      }
    }

    method MasterYieldThread(slot: Slot)
      requires Enabled(Value(), Yield(slot))
      modifies this
      ensures Value() == Do(old(Value()), Yield(slot)) && Effect(old(Value()), Yield(slot), Value())
    {
      StepHasEffect(Value(), Yield(slot));
      var t := slot.tile;
      SetState(t, slot.idx, Stalled);
      RequeueThread(t);
      RunNext(t);
    }

    // RoundRobinThreadScheduler::requeueThread
    method RequeueThread(t: nat)
      requires t < |tiles| && tiles[t].queue != []
      modifies `tiles
      ensures tiles == old(tiles)[t := old(tiles[t]).(queue := Rotated(old(tiles[t].queue)))]
    {
      var req := tiles[t].queue[0];
      tiles := tiles[t := tiles[t].(queue := tiles[t].queue[1..])];
      tiles := tiles[t := tiles[t].(queue := tiles[t].queue + [req])];
    }

    // The request for slot j leaves the queue of tile t.
    method TakeRequest(t: nat, j: nat) returns (req: Request)
      requires t < |tiles| && Queued(tiles[t].queue, j)
      modifies `tiles
      ensures req == Found(old(tiles[t].queue), j)
      ensures tiles == old(tiles)[t := old(tiles[t]).(queue := Without(old(tiles[t].queue), j))]
    {
      var rest;
      rest, req := Sift(tiles[t].queue, j);
      tiles := tiles[t := tiles[t].(queue := rest)];
    }

    method MasterMigrateThread(tid: int, to: nat)
      requires Enabled(Value(), Migrate(tid, to))
      modifies this
      ensures Value() == Do(old(Value()), Migrate(tid, to)) && Effect(old(Value()), Migrate(tid, to), Value())
    {
      StepHasEffect(Value(), Migrate(tid, to));
      var k := GetIdleThread(to);
      if k < 0 {
        return;
      }
      var src := tidToCore[tid];
      var thread := tiles[src.tile].threads[src.idx];
      var req := TakeRequest(src.tile, src.idx);
      var startable := PlaceThread(to, k, thread, req.(tidx := k));
      tidToCore := tidToCore[thread.tid := Slot(to, k)];
      SetState(src.tile, src.idx, Idle);
      if startable {
        if thread.status.Initializing? {
          MasterStartThread(to);
        } else {
          SetState(to, k, Running);
        }
      }
    }

    // The request and the thread's state go to the destination; `startable` says that nobody runs or starts there.
    method PlaceThread(t: nat, k: nat, thread: Thread, req: Request) returns (startable: bool)
      requires t < |tiles| && k < |tiles[t].threads|
      modifies `tiles
      ensures startable == (!Any(old(tiles[t].threads), Running) && !Any(old(tiles[t].threads), Initializing))
      ensures tiles == old(tiles)[t := old(tiles[t]).(queue := old(tiles[t].queue) + [req],
                                                      threads := old(tiles[t].threads)[k := thread])]
    {
      tiles := tiles[t := tiles[t].(queue := tiles[t].queue + [req])];
      var running := IsCore(t, Running);
      startable := false;
      if !running {
        var initializing := IsCore(t, Initializing);
        startable := !initializing;
      }
      tiles := tiles[t := tiles[t].(threads := tiles[t].threads[k := thread])];
    }
  }

  // The request at i has come off the front and perhaps gone back on at the end.
  lemma {:induction false} SiftTurn(queue: seq<Request>, i: nat, j: nat)
    requires i < |queue|
    ensures var (r, done, next) := (queue[i], Without(queue[..i], j), queue[..i + 1]);
      && (queue[i..] + done)[0] == r
      && (queue[i..] + done)[1..] + (if r.tidx == j then [] else [r]) == queue[i + 1..] + Without(next, j)
      && (Queued(next, j) <==> Queued(queue[..i], j) || r.tidx == j)
      && (Queued(next, j) ==> Found(next, j) == if r.tidx == j then r else Found(queue[..i], j))
  {
    var (before, r) := (queue[..i], queue[i]);
    assert queue[..i + 1] == before + [r] && queue[..i + 1][..i] == before;
    QueuedAppend(before, r, j);
    WithoutNext(before, r, j);
  }

  // The loop of masterMigrateThread: every request comes off the front once, and all
  // but those for slot j go back on at the end.
  method Sift(queue: seq<Request>, j: nat) returns (rest: seq<Request>, req: Request)
    requires Queued(queue, j)
    ensures rest == Without(queue, j) && req == Found(queue, j)
  {
    rest := queue;
    var found: Option<Request> := None;
    for i := 0 to |queue|
      invariant rest == queue[i..] + Without(queue[..i], j)
      invariant found.Some? == Queued(queue[..i], j)
      invariant found.Some? ==> found.value == Found(queue[..i], j)
    {
      SiftTurn(queue, i, j);
      var r := rest[0];
      rest := rest[1..];
      if r.tidx != j {
        rest := rest + [r];
      } else {
        found := Some(r);
      }
    }
    assert queue[..|queue|] == queue;
    req := found.value;
  }

  // Stalling the requester during the call and resuming it afterwards leaves no trace.
  lemma {:induction false} StallAndResume(s: State, requester: Slot, slot: Slot, tiles: seq<Tile>)
    requires Shape(s) && IsSlot(s, requester) && At(s, requester).status.Running?
    requires IsSlot(s, slot) && At(s, slot).status.Idle?
    requires var stalled := s.tiles[requester.tile := SetStatus(s.tiles[requester.tile], requester.idx, Stalled)];
      var tid := s.counter + 1;
      var added := stalled[slot.tile := Add(Named(stalled[slot.tile], slot.idx, tid), Request(slot.idx, tid), requester.tile != slot.tile)];
      tiles == added[requester.tile := SetStatus(added[requester.tile], requester.idx, Running)]
    ensures tiles == DoSpawn(s, requester.tile, slot).tiles
  {
    var (r, d) := (DoSpawn(s, requester.tile, slot).tiles, slot.tile);
    forall t | 0 <= t < |tiles| ensures tiles[t] == r[t] {
      assert tiles[t].threads == r[t].threads;
    }
  }
}
