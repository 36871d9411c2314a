/**
 What the MCP does with each request, on values: the handlers of
 common/system/sync_server.cc, the futex handlers of
 common/system/syscall_server.cc, and join and exit of
 common/system/thread_manager.cc.
 */
module SyncHandlers {
  import opened SyncModel

  // A loop body n times.
  function Repeat<T>(f: T -> T, n: nat, x: T): T {
    if n == 0 then x else Repeat(f, n - 1, f(x))
  }

  // ---------------------------------------------------------------- mutexes

  function SetOwner(s: State, m: nat, owner: Option<nat>): (r: State)
    requires m < |s.mutexes|
    ensures forall p {:trigger Queue(r, p)} :: Queue(r, p) == Queue(s, p)
  {
    s.(mutexes := s.mutexes[m := s.mutexes[m].(owner := owner)])
  }

  // SimMutex::lock for core c: granted, or at the end of the queue
  predicate Free(s: State, m: nat)
    requires m < |s.mutexes|
  {
    s.mutexes[m].owner.None?
  }

  function LockMutex(s: State, m: nat, c: nat): State
    requires m < |s.mutexes| && c < |s.clients|
  {
    if Free(s, m) then SetOwner(s, m, Some(c)) else Park(s, c, InMutex(m))
  }

  // SimMutex::unlock: the next owner, if there is one
  function NextOwner(s: State, m: nat): Option<nat>
    requires m < |s.mutexes|
  {
    var q := Queue(s, InMutex(m));
    if q == [] then None else Some(q[0])
  }

  function UnlockMutex(s: State, m: nat): State
    requires m < |s.mutexes| && (NextOwner(s, m).Some? ==> NextOwner(s, m).value < |s.clients|)
  {
    var o := NextOwner(s, m);
    SetOwner(if o.None? then s else Unpark(s, InMutex(m)), m, o)
  }

  function Granted(time: nat): Reply { Timed(MUTEX_LOCK_RESPONSE, time) }

  // Unlock, and tell the next owner.
  function PassOn(s: State, m: nat, time: nat): State
    requires m < |s.mutexes| && (NextOwner(s, m).Some? ==> NextOwner(s, m).value < |s.clients|)
  {
    var (o, r) := (NextOwner(s, m), UnlockMutex(s, m));
    if o.None? then r else Send(r, o.value, Granted(time))
  }

  // ---------------------------------------------------------------- condition variables

  function SetMuxes(s: State, k: nat, muxes: seq<nat>): (r: State)
    requires k < |s.conds|
    ensures forall p {:trigger Queue(r, p)} :: Queue(r, p) == Queue(s, p)
  {
    s.(conds := s.conds[k := s.conds[k].(muxes := muxes)])
  }

  // SimCond::signal, with a waiter.  Erasing the first waiter moves the cores of
  // the others up, but not their mutexes: assigning a StableIterator does nothing.
  function WakeOne(s: State, k: nat): State
    requires CanWake(s, k)
  {
    var (c, m) := (s.conds[k].waiting[0], s.conds[k].muxes[0]);
    var r := SetMuxes(Unpark(s, InCond(k)), k, s.conds[k].muxes[..|s.conds[k].muxes| - 1]);
    LockMutex(r, m, c)
  }

  // Waiters and mutexes go together, and name things that exist.
  predicate CondOk(cond: Cond, clients: nat, mutexes: nat) {
    |cond.waiting| == |cond.muxes| && AllBelow(cond.waiting, clients) && AllBelow(cond.muxes, mutexes)
  }

  predicate AllBelow(list: seq<nat>, n: nat) {
    forall i :: 0 <= i < |list| ==> list[i] < n
  }

  // The state in the loop of SimCond::broadcast, and the waiters that got their mutex.
  datatype Waking = Waking(s: State, woken: seq<nat>)

  predicate CanWake(s: State, k: nat) {
    && k < |s.conds| && s.conds[k].waiting != [] && s.conds[k].muxes != []
    && s.conds[k].waiting[0] < |s.clients| && s.conds[k].muxes[0] < |s.mutexes|
  }

  // One turn: the first waiter and its mutex leave the list.
  function WakeNext(w: Waking, k: nat): Waking {
    if !CanWake(w.s, k) then w
    else
      var (c, m) := (w.s.conds[k].waiting[0], w.s.conds[k].muxes[0]);
      Waking(LockMutex(SetMuxes(Unpark(w.s, InCond(k)), k, w.s.conds[k].muxes[1..]), m, c),
             if Free(w.s, m) then w.woken + [c] else w.woken)
  }

  function WakeAll(s: State, k: nat): Waking
    requires k < |s.conds|
  {
    Repeat(w => WakeNext(w, k), |s.conds[k].waiting|, Waking(s, []))
  }

  function SendAll(s: State, list: seq<nat>, reply: Reply): State
    decreases |list|
  {
    if list == [] then s else SendAll(if list[0] < |s.clients| then Send(s, list[0], reply) else s, list[1..], reply)
  }

  // ---------------------------------------------------------------- barriers

  // SimBarrier::wait up to the test whether all have come
  function Arrive(s: State, b: nat, c: nat, time: nat): State
    requires b < |s.barriers| && c < |s.clients|
  {
    var r := Park(s, c, InBarrier(b));
    var first := s.barriers[b].waiting == [];
    var max := if first || time > s.barriers[b].maxTime then time else s.barriers[b].maxTime;
    r.(barriers := r.barriers[b := r.barriers[b].(maxTime := max)])
  }

  // All leave a queue.
  function Release(s: State, p: Place): (r: State)
    requires QueueOk(s, p)
    ensures |r.clients| == |s.clients|
    decreases |Queue(s, p)|
  {
    if Queue(s, p) == [] then s else Release(Unpark(s, p), p)
  }

  function Resumed(k: Client): Client { k.(status := Running, place := None) }

  // All in the list run again.
  function ResumedAll(clients: seq<Client>, q: seq<nat>): (r: seq<Client>)
    requires AllBelow(q, |clients|)
    ensures |r| == |clients|
    decreases |q|
  {
    if q == [] then clients else ResumedAll(clients[q[0] := Resumed(clients[q[0]])], q[1..])
  }

  // The loop of SimBarrier::wait over the waiters, with its flags.  There are as many
  // flags as waiters, and they are indexed by tile: None is an access beyond them.
  function ResumeTiles(clients: seq<Client>, q: seq<nat>, flags: seq<bool>): Option<seq<Client>>
    requires AllBelow(q, |clients|)
    decreases |q|
  {
    if q == [] then Some(clients)
    else if q[0] >= |flags| then None
    else if flags[q[0]] then ResumeTiles(clients, q[1..], flags)
    else ResumeTiles(clients[q[0] := Resumed(clients[q[0]])], q[1..], flags[q[0] := true])
  }

  function NoFlags(n: nat): seq<bool> { seq(n, _ => false) }

  // ---------------------------------------------------------------- futexes

  function Min(a: int, b: int): int { if a < b then a else b }

  predicate QueueOk(s: State, p: Place) {
    Exists(s, p) && AllBelow(Queue(s, p), |s.clients|)
  }

  // dequeueWaiter, and the reply to the waiter; nothing if nobody waits
  function Notify(s: State, addr: int): (r: State)
  {
    var q := Queue(s, InFutex(addr));
    if q == [] || q[0] >= |s.clients| then s else Send(Unpark(s, InFutex(addr)), q[0], FutexResult(0))
  }

  // dequeueWaiter, then enqueueWaiter at another address or at the same
  function Move(s: State, addr: int, addr2: int): (r: State)
  {
    var q := Queue(s, InFutex(addr));
    if q == [] || q[0] >= |s.clients| then s else Park(Unpark(s, InFutex(addr)), q[0], InFutex(addr2))
  }

  function NonNegative(n: int): nat { if n < 0 then 0 else n }

  // __futexWake: at most `val` waiters, from the front
  function WakeFutex(s: State, addr: int, val: int): State {
    Repeat(x => Notify(x, addr), NonNegative(val), s)
  }

  function WakeCount(s: State, addr: int, val: int): int {
    Min(NonNegative(val), |Queue(s, InFutex(addr))|)
  }

  // The loop of futexCmpRequeue: at most `val` waiters.  At the same address the
  // queue never runs out, so that waiters count again when they come round.
  function Requeue(s: State, addr: int, addr2: int, val: int): State {
    Repeat(x => Move(x, addr, addr2), NonNegative(val), s)
  }

  function RequeueCount(s: State, addr: int, addr2: int, val: int): int {
    var q := Queue(s, InFutex(addr));
    if addr == addr2 && q != [] then NonNegative(val) else Min(NonNegative(val), |q|)
  }

  // ---------------------------------------------------------------- requests

  // Recorded waiters exist, and every thread has a slot for the one that joins it.
  predicate Shape(s: State) {
    |s.joiners| == |s.clients| && forall k :: 0 <= k < |s.conds| ==> CondOk(s.conds[k], |s.clients|, |s.mutexes|)
  }

  ghost predicate Queued(s: State) {
    forall p :: AllBelow(Queue(s, p), |s.clients|)
  }

  // What the assertions of the handlers demand of a request of core c.
  predicate Allowed(s: State, c: nat, call: Call) {
    match call
    case MutexLock(m) => m < |s.mutexes|
    case MutexUnlock(m) => m < |s.mutexes| && s.mutexes[m].owner == Some(c)
    case CondWait(k, m) => k < |s.conds| && m < |s.mutexes| && s.mutexes[m].owner == Some(c)
    case CondSignal(k) => k < |s.conds|
    case CondBroadcast(k) => k < |s.conds|
    case BarrierWait(b) => b < |s.barriers| && |s.barriers[b].waiting| + 1 <= s.barriers[b].count
    case Join(t) => t < |s.joiners| && s.joiners[t] == []
    case _ => true
  }

  // The flags of SimBarrier::wait reach as far as the tiles of the generation that a request completes.
  predicate FlagsReach(s: State, c: nat, call: Call) {
    call.BarrierWait? && call.barrier < |s.barriers| && |s.barriers[call.barrier].waiting| + 1 == s.barriers[call.barrier].count ==>
      AllBelow(s.barriers[call.barrier].waiting + [c], s.barriers[call.barrier].count)
  }

  // mutexInit, condInit and barrierInit: a new object, and its index for the caller
  function DoInit(s: State, c: nat, call: Call): State
    requires c < |s.clients|
  {
    match call
    case MutexInit => Send(s.(mutexes := s.mutexes + [Mutex(None, [])]), c, Index(|s.mutexes|))
    case CondInit => Send(s.(conds := s.conds + [Cond([], [])]), c, Index(|s.conds|))
    case BarrierInit(n) => Send(s.(barriers := s.barriers + [Barrier(n, [], 0)]), c, Index(|s.barriers|))
    case _ => s
  }

  function DoLock(s: State, c: nat, m: nat, time: nat): State
    requires c < |s.clients| && m < |s.mutexes|
  {
    var r := LockMutex(s, m, c);
    if Free(s, m) then Send(r, c, Granted(time)) else r
  }

  ghost function DoUnlock(s: State, c: nat, m: nat, time: nat): State
    requires c < |s.clients| && m < |s.mutexes| && Queued(s)
  {
    assert AllBelow(Queue(s, InMutex(m)), |s.clients|);
    Send(PassOn(s, m, time), c, Plain(MUTEX_UNLOCK_RESPONSE))
  }

  // Into the waiting list, with the mutex
  function Await(s: State, c: nat, k: nat, m: nat): State
    requires c < |s.clients| && k < |s.conds|
  {
    SetMuxes(Park(s, c, InCond(k)), k, s.conds[k].muxes + [m])
  }

  ghost function DoCondWait(s: State, c: nat, k: nat, m: nat, time: nat): State
    requires c < |s.clients| && k < |s.conds| && m < |s.mutexes| && Queued(s)
  {
    assert AllBelow(Queue(s, InMutex(m)), |s.clients|);
    PassOn(Await(s, c, k, m), m, time)
  }

  function DoSignal(s: State, c: nat, k: nat, time: nat): State
    requires c < |s.clients| && k < |s.conds| && Shape(s)
  {
    var told := if s.conds[k].waiting == [] then s
                else
                  var (d, m) := (s.conds[k].waiting[0], s.conds[k].muxes[0]);
                  if Free(s, m) then Send(WakeOne(s, k), d, Granted(time)) else WakeOne(s, k);
    Send(told, c, Plain(COND_SIGNAL_RESPONSE))
  }

  function DoBroadcast(s: State, c: nat, k: nat, time: nat): State
    requires k < |s.conds|
  {
    var w := WakeAll(s, k);
    SendAll(SendAll(w.s, w.woken, Granted(time)), [c], Plain(COND_BROADCAST_RESPONSE))
  }

  // All that wait are resumed and told the latest arrival time.
  function Open(s: State, b: nat): State
    requires b < |s.barriers| && QueueOk(s, InBarrier(b))
  {
    SendAll(Release(s, InBarrier(b)), s.barriers[b].waiting, Timed(BARRIER_WAIT_RESPONSE, s.barriers[b].maxTime))
  }

  ghost function DoBarrierWait(s: State, c: nat, b: nat, time: nat): State
    requires c < |s.clients| && b < |s.barriers| && Queued(s)
  {
    var r := Arrive(s, b, c, time);
    assert AllBelow(Queue(s, InBarrier(b)), |s.clients|);
    if |r.barriers[b].waiting| < r.barriers[b].count then r else Open(r, b)
  }

  function DoFutex(s: State, c: nat, call: Call): State
    requires c < |s.clients|
  {
    match call
    case FutexWait(a, equal) => if equal then Park(s, c, InFutex(a)) else Answer(s, c, -EWOULDBLOCK)
    case FutexWake(a, val) => Answer(WakeFutex(s, a, val), c, WakeCount(s, a, val))
    case FutexWakeOp(a, val, a2, val2, condition) =>
      var (r, n) := (WakeFutex(s, a, val), WakeCount(s, a, val));
      if condition then Answer(WakeFutex(r, a2, val2), c, n + WakeCount(r, a2, val2)) else Answer(r, c, n)
    case FutexCmpRequeue(a, val, a2, val2, equal) =>
      var (r, n) := (WakeFutex(s, a, val), WakeCount(s, a, val));
      if !equal then Answer(s, c, -EWOULDBLOCK)
      else Answer(Requeue(r, a, a2, val2), c, n + RequeueCount(r, a, a2, val2))
    case _ => s
  }

  function Answer(s: State, c: nat, value: int): State {
    if c < |s.clients| then Send(s, c, FutexResult(value)) else s
  }

  // wakeUpMainWaiter
  ghost function WakeJoiner(s: State, t: nat, time: nat): State
    requires t < |s.joiners| && Queued(s)
  {
    assert AllBelow(Queue(s, InJoin(t)), |s.clients|);
    if s.joiners[t] == [] then s else Send(Unpark(s, InJoin(t)), s.joiners[t][0], JoinReply(time))
  }

  // masterJoinThread
  ghost function DoJoin(s: State, c: nat, t: nat, time: nat): State
    requires c < |s.clients| && t < |s.joiners| && Queued(s) && t < |s.clients|
  {
    var r := Park(s, c, InJoin(t));
    if s.clients[t].status.Idle? then WakeJoiner(r, t, time) else r
  }

  // masterOnThreadExit
  ghost function DoExit(s: State, c: nat, time: nat): State
    requires c < |s.clients| && c < |s.joiners| && Queued(s)
  {
    var r := s.(clients := s.clients[c := s.clients[c].(status := Idle, phase := Gone)]);
    SameQueues(s, r);
    WakeJoiner(r, c, time)
  }
}
