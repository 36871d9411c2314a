/**
 The MCP's request handlers as code over its tables: SimMutex, SimCond,
 SimBarrier and SyncServer of common/system/sync_server.cc, SimFutex and the futex
 calls of common/system/syscall_server.cc, stall, resume, join and exit of
 common/system/thread_manager.cc.  Each does what SyncHandlers says.
 */
module SyncServer {
  import opened SyncModel
  import opened SyncHandlers
  import opened SyncProofs
  import opened SyncRuns
  import opened SyncBarriers
  import SyncEffects

  // ---------------------------------------------------------------- loops

  // A barrier's waiting list replaced.
  function Waiting(s: State, b: nat, q: seq<nat>): State
    requires b < |s.barriers|
  {
    s.(barriers := s.barriers[b := s.barriers[b].(waiting := q)])
  }

  lemma {:induction false} ReleaseResumes(s: State, b: nat, q: seq<nat>)
    requires b < |s.barriers| && AllBelow(q, |s.clients|)
    ensures Release(Waiting(s, b, q), InBarrier(b)) == Waiting(s.(clients := ResumedAll(s.clients, q)), b, [])
    decreases |q|
  {
    if q != [] {
      var r := s.(clients := s.clients[q[0] := Resumed(s.clients[q[0]])]);
      assert Unpark(Waiting(s, b, q), InBarrier(b)) == Waiting(r, b, q[1..]);
      ReleaseResumes(r, b, q[1..]);
    }
  }

  // A condition variable's list without its first i.
  function Rest(s: State, k: nat, i: nat): State
    requires k < |s.conds| && i <= |s.conds[k].waiting| && i <= |s.conds[k].muxes|
  {
    s.(conds := s.conds[k := Cond(s.conds[k].waiting[i..], s.conds[k].muxes[i..])])
  }

  lemma {:induction false} WakeTurn(s: State, k: nat, i: nat, woken: seq<nat>, c: nat, m: nat)
    requires k < |s.conds| && CondOk(s.conds[k], |s.clients|, |s.mutexes|) && i < |s.conds[k].waiting|
    requires c == s.conds[k].waiting[i] && m == s.conds[k].muxes[i]
    ensures var r := LockMutex(s.(clients := s.clients[c := Resumed(s.clients[c])]), m, c);
      && r.conds == s.conds
      && WakeNext(Waking(Rest(s, k, i), woken), k) == Waking(Rest(r, k, i + 1), if Free(s, m) then woken + [c] else woken)
  {
    var u := s.(clients := s.clients[c := Resumed(s.clients[c])]);
    var v := Rest(s, k, i);
    assert v.conds[k].waiting[0] == c && v.conds[k].muxes[0] == m;
    assert v.conds[k].waiting[1..] == s.conds[k].waiting[i + 1..] && v.conds[k].muxes[1..] == s.conds[k].muxes[i + 1..];
    assert SetMuxes(Unpark(v, InCond(k)), k, v.conds[k].muxes[1..]) == Rest(u, k, i + 1);
    assert LockMutex(Rest(u, k, i + 1), m, c) == Rest(LockMutex(u, m, c), k, i + 1);
  }

  // What holds of the loop of SimCond::broadcast with some turns to go holds after the next turn.
  ghost predicate Turning(k: nat, holds: (Waking, nat) -> bool) {
    forall w: Waking, n: nat {:trigger WakeNext(w, k), holds(w, n)} :: n > 0 && holds(w, n) ==> holds(WakeNext(w, k), n - 1)
  }

  // Such as: the turns to go lead to where all of them lead.
  ghost function Leads(s: State, k: nat): (holds: (Waking, nat) -> bool)
    requires k < |s.conds|
    ensures Turning(k, holds) && holds(Waking(s, []), |s.conds[k].waiting|)
    ensures forall w: Waking {:trigger holds(w, 0)} :: holds(w, 0) ==> w == WakeAll(s, k)
  {
    (w: Waking, n: nat) => Repeat(w => WakeNext(w, k), n, w) == WakeAll(s, k)
  }

  lemma {:induction false} RestEnds(s: State, k: nat)
    requires k < |s.conds| && |s.conds[k].waiting| == |s.conds[k].muxes|
    ensures Rest(s, k, 0) == s && Rest(s, k, |s.conds[k].waiting|) == s.(conds := s.conds[k := Cond([], [])])
  {
    var cond := s.conds[k];
    assert cond.waiting[|cond.waiting|..] == [] && cond.muxes[|cond.waiting|..] == [];
  }

  lemma {:induction false} RepeatSame<T>(f: T -> T, n: nat, x: T)
    requires f(x) == x
    ensures Repeat(f, n, x) == x
    decreases n
  {
    if n > 0 {
      RepeatSame(f, n - 1, x);
    }
  }

  lemma {:induction false} WakeFutexTurn(s: State, addr: int, n: nat)
    requires n > 0 && AllBelow(Queue(s, InFutex(addr)), |s.clients|)
    ensures var r := Notify(s, addr);
      && AllBelow(Queue(r, InFutex(addr)), |r.clients|)
      && if Queue(s, InFutex(addr)) == [] then r == s && WakeFutex(s, addr, n) == s && WakeCount(s, addr, n) == 0
         else WakeFutex(s, addr, n) == WakeFutex(r, addr, n - 1) && WakeCount(s, addr, n) == WakeCount(r, addr, n - 1) + 1
  {
    if Queue(s, InFutex(addr)) == [] {
      RepeatSame(x => Notify(x, addr), n, s);
    }
  }

  lemma {:induction false} RequeueTurn(s: State, addr: int, addr2: int, n: nat)
    requires n > 0 && AllBelow(Queue(s, InFutex(addr)), |s.clients|)
    ensures var r := Move(s, addr, addr2);
      && AllBelow(Queue(r, InFutex(addr)), |r.clients|)
      && if Queue(s, InFutex(addr)) == []
         then r == s && Requeue(s, addr, addr2, n) == s && RequeueCount(s, addr, addr2, n) == 0
         else && Requeue(s, addr, addr2, n) == Requeue(r, addr, addr2, n - 1)
              && RequeueCount(s, addr, addr2, n) == RequeueCount(r, addr, addr2, n - 1) + 1
  {
    if Queue(s, InFutex(addr)) == [] {
      RepeatSame(x => Move(x, addr, addr2), n, s);
    }
  }

  lemma {:induction false} HandleHasEffect(s: State, c: nat)
    requires Inv(s, {}) && Shape(s) && Ready(s) && c < |s.clients| && s.clients[c].phase.Sent? && Allowed(s, c, s.clients[c].phase.call)
    ensures SyncEffects.Covered(s.clients[c].phase.call) && |s.joiners[c]| <= 1 ==>
      SyncEffects.Effect(s, Handle(s, c), c, s.clients[c].phase.call)
  {
    if SyncEffects.Covered(s.clients[c].phase.call) && |s.joiners[c]| <= 1 {
      var _ := SyncEffects.Served(s, c, s.clients[c].phase.call);
    }
  }

  // ---------------------------------------------------------------- the server

  class Server {
    var clients: seq<Client>
    var mutexes: seq<Mutex>
    var conds: seq<Cond>
    var barriers: seq<Barrier>
    var futexes: map<int, seq<nat>>
    var joiners: seq<seq<nat>>

    ghost function Value(): State
      reads this
    {
      State(clients, mutexes, conds, barriers, futexes, joiners)
    }

    method StallThread(c: nat, p: Place)
      requires c < |clients|
      modifies `clients
      ensures clients == old(clients)[c := old(clients[c]).(status := Stalled, place := Some(p))]
    {
      clients := clients[c := clients[c].(status := Stalled, place := Some(p))];
    }

    method ResumeThread(c: nat)
      requires c < |clients|
      modifies `clients
      ensures clients == old(clients)[c := Resumed(old(clients[c]))]
    {
      clients := clients[c := clients[c].(status := Running, place := None)];
    }

    method NetSend(c: nat, reply: Reply)
      requires c < |clients|
      modifies `clients
      ensures Value() == Send(old(Value()), c, reply)
    {
      clients := clients[c := clients[c].(inbox := clients[c].inbox + [reply])];
    }

    // SimMutex::lock
    method Lock(m: nat, c: nat) returns (granted: bool)
      requires m < |mutexes| && c < |clients|
      modifies this
      ensures granted == Free(old(Value()), m) && Value() == LockMutex(old(Value()), m, c)
    {
      if mutexes[m].owner.None? {
        mutexes := mutexes[m := mutexes[m].(owner := Some(c))];
        return true;
      } else {
        StallThread(c, InMutex(m));
        mutexes := mutexes[m := mutexes[m].(waiting := mutexes[m].waiting + [c])];
        return false;
      }
    }

    // SimMutex::unlock
    method Unlock(m: nat, c: nat) returns (owner: Option<nat>)
      requires m < |mutexes| && mutexes[m].owner == Some(c) && AllBelow(mutexes[m].waiting, |clients|)
      modifies this
      ensures owner == NextOwner(old(Value()), m) && Value() == UnlockMutex(old(Value()), m)
      ensures var w := old(mutexes[m].waiting);
        if w == [] then owner == None && mutexes == old(mutexes)[m := Mutex(None, [])] && clients == old(clients)
        else && owner == Some(w[0]) && mutexes == old(mutexes)[m := Mutex(Some(w[0]), w[1..])]
             && clients == old(clients)[w[0] := old(clients)[w[0]].(status := Running, place := None)]
    {
      if mutexes[m].waiting == [] {
        mutexes := mutexes[m := mutexes[m].(owner := None)];
        return None;
      } else {
        var next := mutexes[m].waiting[0];
        mutexes := mutexes[m := Mutex(Some(next), mutexes[m].waiting[1..])];
        ResumeThread(next);
        return Some(next);
      }
    }

    method MutexInit(c: nat)
      requires c < |clients|
      modifies this
      ensures Value() == DoInit(old(Value()), c, Call.MutexInit)
    {
      mutexes := mutexes + [Mutex(None, [])];
      NetSend(c, Index(|mutexes| - 1));
    }

    method CondInit(c: nat)
      requires c < |clients|
      modifies this
      ensures Value() == DoInit(old(Value()), c, Call.CondInit)
    {
      conds := conds + [Cond([], [])];
      NetSend(c, Index(|conds| - 1));
    }

    method BarrierInit(c: nat, count: nat)
      requires c < |clients|
      modifies this
      ensures Value() == DoInit(old(Value()), c, Call.BarrierInit(count))
    {
      barriers := barriers + [Barrier(count, [], 0)];
      NetSend(c, Index(|barriers| - 1));
    }

    method MutexLock(c: nat, m: nat, time: nat)
      requires m < |mutexes| && c < |clients|
      modifies this
      ensures Value() == DoLock(old(Value()), c, m, time)
    {
      var granted := Lock(m, c);
      if granted {
        NetSend(c, Timed(MUTEX_LOCK_RESPONSE, time));
      }
    }

    method MutexUnlock(c: nat, m: nat, time: nat)
      requires c < |clients| && Queued(Value()) && m < |mutexes| && mutexes[m].owner == Some(c)
      modifies this
      ensures Value() == DoUnlock(old(Value()), c, m, time)
      ensures var w := old(mutexes[m].waiting);
        if w == [] then mutexes == old(mutexes)[m := Mutex(None, [])]
        else && mutexes == old(mutexes)[m := Mutex(Some(w[0]), w[1..])] && w[0] < |clients| == old(|clients|)
             && (w[0] != c ==> clients[w[0]] == old(clients)[w[0]].(status := Running, place := None,
                  inbox := old(clients)[w[0]].inbox + [Timed(MUTEX_LOCK_RESPONSE, time)]))
    {
      assert AllBelow(Queue(Value(), InMutex(m)), |clients|);
      var owner := Unlock(m, c);
      if owner.Some? {
        NetSend(owner.value, Timed(MUTEX_LOCK_RESPONSE, time));
      }
      NetSend(c, Plain(MUTEX_UNLOCK_RESPONSE));
    }

    method CondWait(c: nat, k: nat, m: nat, time: nat)
      requires c < |clients| && Queued(Value()) && k < |conds| && m < |mutexes| && mutexes[m].owner == Some(c)
      modifies this
      ensures Value() == DoCondWait(old(Value()), c, k, m, time)
      ensures conds == old(conds)[k := Cond(old(conds[k].waiting) + [c], old(conds[k].muxes) + [m])]
      ensures var w := old(mutexes[m].waiting);
        if w == [] then mutexes == old(mutexes)[m := Mutex(None, [])]
        else && mutexes == old(mutexes)[m := Mutex(Some(w[0]), w[1..])] && w[0] < |clients| == old(|clients|)
             && (w[0] != c ==> clients[w[0]] == old(clients)[w[0]].(status := Running, place := None,
                  inbox := old(clients)[w[0]].inbox + [Timed(MUTEX_LOCK_RESPONSE, time)]))
    {
      assert AllBelow(Queue(Value(), InMutex(m)), |clients|);
      StallThread(c, InCond(k));
      conds := conds[k := Cond(conds[k].waiting + [c], conds[k].muxes + [m])];
      assert Value() == Await(old(Value()), c, k, m);
      var owner := Unlock(m, c);
      if owner.Some? {
        NetSend(owner.value, Timed(MUTEX_LOCK_RESPONSE, time));
      }
    }

    // SimCond::signal.  Erasing from the vector moves the elements up one by one,
    // and moves a waiter's core but not its mutex.
    method Signal(k: nat) returns (woken: Option<nat>)
      requires k < |conds| && CondOk(conds[k], |clients|, |mutexes|)
      modifies this
      ensures var s := old(Value());
        if s.conds[k].waiting == [] then woken == None && Value() == s
        else && Value() == WakeOne(s, k)
             && woken == if Free(s, s.conds[k].muxes[0]) then Some(s.conds[k].waiting[0]) else None
    {
      if conds[k].waiting == [] {
        return None;
      }
      var c, m := conds[k].waiting[0], conds[k].muxes[0];
      conds := conds[k := Cond(conds[k].waiting[1..], conds[k].muxes[..|conds[k].muxes| - 1])];
      ResumeThread(c);
      var granted := Lock(m, c);
      return if granted then Some(c) else None;
    }

    method CondSignal(c: nat, k: nat, time: nat)
      requires c < |clients| && k < |conds| && Shape(Value())
      modifies this
      ensures Value() == DoSignal(old(Value()), c, k, time)
    {
      var woken := Signal(k);
      if woken.Some? {
        NetSend(woken.value, Timed(MUTEX_LOCK_RESPONSE, time));
      }
      NetSend(c, Plain(COND_SIGNAL_RESPONSE));
    }

    // One turn of SimCond::broadcast, for the waiter at i; `left` are still to come.
    method WakeWaiter(k: nat, i: nat, woken: seq<nat>, ghost left: nat, ghost holds: (Waking, nat) -> bool) returns (more: seq<nat>)
      requires k < |conds| && CondOk(conds[k], |clients|, |mutexes|) && i < |conds[k].waiting| && AllBelow(woken, |clients|)
      requires Turning(k, holds) && holds(Waking(Rest(Value(), k, i), woken), left + 1)
      modifies this
      ensures conds == old(conds) && |clients| == old(|clients|) && |mutexes| == old(|mutexes|) && AllBelow(more, |clients|)
      ensures holds(Waking(Rest(Value(), k, i + 1), more), left)
    {
      ghost var v := Value();
      var c, m := conds[k].waiting[i], conds[k].muxes[i];
      ResumeThread(c);
      var granted := Lock(m, c);
      more := if granted then woken + [c] else woken;
      WakeTurn(v, k, i, woken, c, m);
    }

    // The loop of SimCond::broadcast
    method WakeWaiters(k: nat, ghost holds: (Waking, nat) -> bool) returns (woken: seq<nat>)
      requires k < |conds| && CondOk(conds[k], |clients|, |mutexes|)
      requires Turning(k, holds) && holds(Waking(Rest(Value(), k, 0), []), |conds[k].waiting|)
      modifies this
      ensures conds == old(conds) && |clients| == old(|clients|) && AllBelow(woken, |clients|)
      ensures holds(Waking(Rest(Value(), k, |conds[k].waiting|), woken), 0)
    {
      woken := [];
      var i := 0;
      while i < |conds[k].waiting|
        invariant conds == old(conds) && |clients| == old(|clients|) && |mutexes| == old(|mutexes|)
        invariant i <= |conds[k].waiting| && AllBelow(woken, |clients|)
        invariant holds(Waking(Rest(Value(), k, i), woken), |conds[k].waiting| - i)
      {
        woken := WakeWaiter(k, i, woken, |conds[k].waiting| - i - 1, holds);
        i := i + 1;
      }
    }

    // SimCond::broadcast
    method Broadcast(k: nat) returns (woken: seq<nat>)
      requires k < |conds| && CondOk(conds[k], |clients|, |mutexes|)
      modifies this
      ensures Waking(Value(), woken) == WakeAll(old(Value()), k) && AllBelow(woken, |clients|) && |clients| == old(|clients|)
    {
      RestEnds(Value(), k);
      woken := WakeWaiters(k, Leads(Value(), k));
      RestEnds(Value(), k);
      conds := conds[k := Cond([], [])];
    }

    // The same reply to each
    method SendEach(list: seq<nat>, reply: Reply)
      requires AllBelow(list, |clients|)
      modifies `clients
      ensures Value() == SendAll(old(Value()), list, reply) && |clients| == old(|clients|)
    {
      ghost var s := Value();
      assert list[0..] == list;
      for i := 0 to |list|
        invariant |clients| == |s.clients| && SendAll(s, list, reply) == SendAll(Value(), list[i..], reply)
      {
        assert list[i..][0] == list[i] && list[i..][1..] == list[i + 1..];
        NetSend(list[i], reply);
      }
    }

    method CondBroadcast(c: nat, k: nat, time: nat)
      requires c < |clients| && k < |conds| && Shape(Value())
      modifies this
      ensures Value() == DoBroadcast(old(Value()), c, k, time)
    {
      var woken := Broadcast(k);
      SendEach(woken, Timed(MUTEX_LOCK_RESPONSE, time));
      SendEach([c], Plain(COND_BROADCAST_RESPONSE));
    }

    // ---------------------------------------------------------------- barriers

    // The loop of SimBarrier::wait over the waiters.
    method ResumeEach(woken: seq<nat>)
      requires AllBelow(woken, |clients|) && AllBelow(woken, |woken|)
      modifies `clients
      ensures Some(clients) == ResumeTiles(old(clients), woken, NoFlags(|woken|))
    {
      assert woken[0..] == woken;
      var resumed, i := NoFlags(|woken|), 0;
      while i < |woken|
        invariant i <= |woken| == |resumed| && |clients| == old(|clients|)
        invariant ResumeTiles(clients, woken[i..], resumed) == ResumeTiles(old(clients), woken, NoFlags(|woken|))
      {
        assert woken[i..][0] == woken[i] && woken[i..][1..] == woken[i + 1..];
        var c := woken[i];
        if !resumed[c] {
          resumed := resumed[c := true];
          ResumeThread(c);
        }
        i := i + 1;
      }
    }

    method ResumeAll(b: nat) returns (woken: seq<nat>)
      requires b < |barriers| && AllBelow(barriers[b].waiting, |clients|) && AllBelow(barriers[b].waiting, |barriers[b].waiting|)
      modifies this
      ensures woken == old(barriers[b].waiting) && |clients| == old(|clients|)
      ensures Value() == Release(old(Value()), InBarrier(b))
    {
      woken := barriers[b].waiting;
      ReleaseResumes(Value(), b, woken);
      assert Waiting(Value(), b, woken) == Value();
      ResumesAll(clients, woken, NoFlags(|woken|));
      ResumeEach(woken);
      barriers := barriers[b := barriers[b].(waiting := [])];
    }

    method BarrierWait(c: nat, b: nat, time: nat)
      requires c < |clients| && Queued(Value()) && b < |barriers| && |barriers[b].waiting| + 1 <= barriers[b].count
      requires FlagsReach(Value(), c, Call.BarrierWait(b))
      modifies this
      ensures Value() == DoBarrierWait(old(Value()), c, b, time)
    {
      assert AllBelow(Queue(Value(), InBarrier(b)), |clients|);
      barriers := barriers[b := barriers[b].(waiting := barriers[b].waiting + [c])];
      StallThread(c, InBarrier(b));
      if |barriers[b].waiting| == 1 || time > barriers[b].maxTime {
        barriers := barriers[b := barriers[b].(maxTime := time)];
      }
      assert Value() == Arrive(old(Value()), b, c, time);
      if |barriers[b].waiting| == barriers[b].count {
        var max := barriers[b].maxTime;
        var woken := ResumeAll(b);
        SendEach(woken, Timed(BARRIER_WAIT_RESPONSE, max));
      }
    }

    // ---------------------------------------------------------------- futexes

    // SimFutex::enqueueWaiter.  An address without an entry has nobody waiting.
    method EnqueueWaiter(addr: int, c: nat)
      requires c < |clients|
      modifies this
      ensures Value() == Park(old(Value()), c, InFutex(addr))
    {
      StallThread(c, InFutex(addr));
      futexes := futexes[addr := (if addr in futexes then futexes[addr] else []) + [c]];
    }

    // SimFutex::dequeueWaiter
    method DequeueWaiter(addr: int) returns (waiter: Option<nat>)
      requires AllBelow(Queue(Value(), InFutex(addr)), |clients|)
      modifies this
      ensures var (s, q) := (old(Value()), Queue(old(Value()), InFutex(addr)));
        if q == [] then waiter == None && Value() == s else waiter == Some(q[0]) && Value() == Unpark(s, InFutex(addr))
    {
      if addr !in futexes || futexes[addr] == [] {
        return None;
      }
      var c := futexes[addr][0];
      futexes := futexes[addr := futexes[addr][1..]];
      ResumeThread(c);
      return Some(c);
    }

    // One turn of __futexWake; `left` are still to come.
    method WakeFirst(addr: int, ghost left: nat) returns (waiter: Option<nat>)
      requires AllBelow(Queue(Value(), InFutex(addr)), |clients|)
      modifies this
      ensures AllBelow(Queue(Value(), InFutex(addr)), |clients|)
      ensures waiter.None? ==> WakeFutex(old(Value()), addr, left + 1) == Value() && WakeCount(old(Value()), addr, left + 1) == 0
      ensures waiter.Some? ==> WakeFutex(old(Value()), addr, left + 1) == WakeFutex(Value(), addr, left)
      ensures waiter.Some? ==> WakeCount(old(Value()), addr, left + 1) == WakeCount(Value(), addr, left) + 1
    {
      WakeFutexTurn(Value(), addr, left + 1);
      waiter := DequeueWaiter(addr);
      if waiter.Some? {
        NetSend(waiter.value, FutexResult(0));
      }
    }

    // __futexWake
    method FutexWakeUp(addr: int, val: int) returns (count: int)
      requires AllBelow(Queue(Value(), InFutex(addr)), |clients|)
      modifies this
      ensures Value() == WakeFutex(old(Value()), addr, val) && count == WakeCount(old(Value()), addr, val)
    {
      ghost var s := Value();
      count := 0;
      var i := 0;
      while i < val
        invariant i == 0 || i <= val
        invariant AllBelow(Queue(Value(), InFutex(addr)), |clients|)
        invariant WakeFutex(Value(), addr, val - i) == WakeFutex(s, addr, val)
        invariant count + WakeCount(Value(), addr, val - i) == WakeCount(s, addr, val)
        decreases val - i
      {
        var waiter := WakeFirst(addr, val - i - 1);
        if waiter.None? {
          break;
        }
        count := count + 1;
        i := i + 1;
      }
    }

    // One turn of the loop of futexCmpRequeue.  The waiter runs for a moment.
    method MoveFirst(addr: int, addr2: int, ghost left: nat) returns (waiter: Option<nat>)
      requires AllBelow(Queue(Value(), InFutex(addr)), |clients|)
      modifies this
      ensures AllBelow(Queue(Value(), InFutex(addr)), |clients|)
      ensures waiter.None? ==>
        Requeue(old(Value()), addr, addr2, left + 1) == Value() && RequeueCount(old(Value()), addr, addr2, left + 1) == 0
      ensures waiter.Some? ==> Requeue(old(Value()), addr, addr2, left + 1) == Requeue(Value(), addr, addr2, left)
      ensures waiter.Some? ==> RequeueCount(old(Value()), addr, addr2, left + 1) == RequeueCount(Value(), addr, addr2, left) + 1
    {
      RequeueTurn(Value(), addr, addr2, left + 1);
      waiter := DequeueWaiter(addr);
      if waiter.Some? {
        EnqueueWaiter(addr2, waiter.value);
      }
    }

    method RequeueWaiters(addr: int, addr2: int, val: int) returns (count: int)
      requires AllBelow(Queue(Value(), InFutex(addr)), |clients|)
      modifies this
      ensures Value() == Requeue(old(Value()), addr, addr2, val) && count == RequeueCount(old(Value()), addr, addr2, val)
    {
      ghost var s := Value();
      count := 0;
      var i := 0;
      while i < val
        invariant i == 0 || i <= val
        invariant AllBelow(Queue(Value(), InFutex(addr)), |clients|)
        invariant Requeue(Value(), addr, addr2, val - i) == Requeue(s, addr, addr2, val)
        invariant count + RequeueCount(Value(), addr, addr2, val - i) == RequeueCount(s, addr, addr2, val)
        decreases val - i
      {
        var waiter := MoveFirst(addr, addr2, val - i - 1);
        if waiter.None? {
          break;
        }
        count := count + 1;
        i := i + 1;
      }
    }

    method FutexWait(c: nat, addr: int, equal: bool)
      requires c < |clients|
      modifies this
      ensures Value() == DoFutex(old(Value()), c, Call.FutexWait(addr, equal))
    {
      if !equal {
        NetSend(c, FutexResult(-EWOULDBLOCK));
      } else {
        EnqueueWaiter(addr, c);
      }
    }

    method FutexWake(c: nat, addr: int, val: int)
      requires c < |clients| && Inv(Value(), {c})
      modifies this
      ensures Value() == DoFutex(old(Value()), c, Call.FutexWake(addr, val))
    {
      InvQueued(Value(), {c});
      WakeFutexKeepsInv(Value(), addr, val, {c});
      var count := FutexWakeUp(addr, val);
      NetSend(c, FutexResult(count));
    }

    method FutexWakeOp(c: nat, addr: int, val: int, addr2: int, val2: int, condition: bool)
      requires c < |clients| && Inv(Value(), {c})
      modifies this
      ensures Value() == DoFutex(old(Value()), c, Call.FutexWakeOp(addr, val, addr2, val2, condition))
    {
      InvQueued(Value(), {c});
      WakeFutexKeepsInv(Value(), addr, val, {c});
      var count := FutexWakeUp(addr, val);
      if condition {
        InvQueued(Value(), {c});
        WakeFutexKeepsInv(Value(), addr2, val2, {c});
        var more := FutexWakeUp(addr2, val2);
        count := count + more;
      }
      NetSend(c, FutexResult(count));
    }

    method FutexCmpRequeue(c: nat, addr: int, val: int, addr2: int, val2: int, equal: bool)
      requires c < |clients| && Inv(Value(), {c})
      modifies this
      ensures Value() == DoFutex(old(Value()), c, Call.FutexCmpRequeue(addr, val, addr2, val2, equal))
    {
      if !equal {
        NetSend(c, FutexResult(-EWOULDBLOCK));
        return;
      }
      InvQueued(Value(), {c});
      WakeFutexKeepsInv(Value(), addr, val, {c});
      var count := FutexWakeUp(addr, val);
      InvQueued(Value(), {c});
      RequeueKeepsInv(Value(), addr, addr2, val2, {c});
      var more := RequeueWaiters(addr, addr2, val2);
      NetSend(c, FutexResult(count + more));
    }

    // ---------------------------------------------------------------- joins

    // wakeUpMainWaiter
    method WakeUpWaiter(t: nat, time: nat)
      requires t < |joiners| && Queued(Value())
      modifies this
      ensures Value() == WakeJoiner(old(Value()), t, time)
    {
      assert AllBelow(Queue(Value(), InJoin(t)), |clients|);
      if joiners[t] != [] {
        var c := joiners[t][0];
        ResumeThread(c);
        NetSend(c, JoinReply(time));
        joiners := joiners[t := joiners[t][1..]];
      }
    }

    // masterJoinThread
    method JoinThread(c: nat, t: nat, time: nat)
      requires c < |clients| && t < |clients| && t < |joiners| && joiners[t] == [] && Queued(Value())
      requires clients[c].status.Running?
      modifies this
      ensures Value() == DoJoin(old(Value()), c, t, time)
    {
      assert [c] == [] + [c];
      joiners := joiners[t := [c]];
      StallThread(c, InJoin(t));
      assert Value() == Park(old(Value()), c, InJoin(t));
      if clients[t].status.Idle? {
        WakeUpWaiter(t, time);
      }
    }

    // masterOnThreadExit
    method ThreadExit(c: nat, time: nat)
      requires c < |clients| && c < |joiners| && Queued(Value())
      modifies this
      ensures Value() == DoExit(old(Value()), c, time)
      ensures var w := old(joiners[c]);
        if w == [] then joiners == old(joiners)
        else && joiners == old(joiners)[c := w[1..]] && w[0] < |clients| == old(|clients|)
             && (w[0] != c ==> clients[w[0]] == old(clients)[w[0]].(status := Running, place := None,
                  inbox := old(clients)[w[0]].inbox + [JoinReply(time)]))
    {
      clients := clients[c := clients[c].(status := Idle, phase := Gone)];
      SameQueues(old(Value()), Value());
      WakeUpWaiter(c, time);
    }

    // ---------------------------------------------------------------- requests

    // MCP::processPacket: one request of core c
    method Serve(c: nat)
      requires Inv(Value(), {}) && Shape(Value()) && c < |clients| && clients[c].phase.Sent?
      requires Allowed(Value(), c, clients[c].phase.call) && FlagsReach(Value(), c, clients[c].phase.call)
      modifies this
      ensures old(Ready(Value())) && Value() == Handle(old(Value()), c) && Inv(Value(), {}) && Shape(Value())
      ensures var (s, call) := (old(Value()), old(clients[c].phase.call));
        SyncEffects.Covered(call) && |s.joiners[c]| <= 1 ==> SyncEffects.Effect(s, Value(), c, call)
    {
      ghost var s := Value();
      InvQueued(s, {});
      HandleKeepsInv(s, c);
      HandleKeepsShape(s, c);
      HandleHasEffect(s, c);
      AcceptKeepsInv(s, c);
      assert CoreOk(s.clients, QueuesOf(s), c, {});
      var call, time := clients[c].phase.call, clients[c].clock;
      clients := clients[c := clients[c].(phase := Blocked(call))];
      SameQueues(s, Value());
      match call {
        case MutexInit => MutexInit(c);
        case CondInit => CondInit(c);
        case BarrierInit(count) => BarrierInit(c, count);
        case MutexLock(m) => MutexLock(c, m, time);
        case MutexUnlock(m) => MutexUnlock(c, m, time);
        case CondWait(k, m) => CondWait(c, k, m, time);
        case CondSignal(k) => CondSignal(c, k, time);
        case CondBroadcast(k) => CondBroadcast(c, k, time);
        case BarrierWait(b) => BarrierWait(c, b, time);
        case FutexWait(addr, equal) => FutexWait(c, addr, equal);
        case FutexWake(addr, val) => FutexWake(c, addr, val);
        case FutexWakeOp(addr, val, addr2, val2, condition) => FutexWakeOp(c, addr, val, addr2, val2, condition);
        case FutexCmpRequeue(addr, val, addr2, val2, equal) => FutexCmpRequeue(c, addr, val, addr2, val2, equal);
        case Join(t) => JoinThread(c, t, time);
        case Exit => ThreadExit(c, time);
      }
    }
  }
}
