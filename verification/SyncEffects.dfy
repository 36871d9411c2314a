/**
 What each request to the MCP does to mutexes, condition variables and join
 waiters, and whom it tells: the lock, unlock, wait, signal and broadcast handlers
 of common/system/sync_server.cc, join and exit of common/system/thread_manager.cc.
 */
module SyncEffects {
  import opened SyncModel
  import opened SyncHandlers
  import opened SyncProofs
  import opened SyncOwners
  import opened SyncRuns
  import opened SyncTheorems
  import opened SyncReplies

  // ---------------------------------------------------------------- clients

  // The sender has its answer.
  function Told(k: Client, reply: Reply): Client
    requires k.phase.Sent?
  {
    Client(Running, Blocked(k.phase.call), [reply], k.clock, None, k.held)
  }

  // The sender waits.
  function WaitsIn(k: Client, p: Place): Client
    requires k.phase.Sent?
  {
    Client(Stalled, Blocked(k.phase.call), [], k.clock, Some(p), k.held)
  }

  // A waiter runs again, and is told so.
  function Woken(k: Client, reply: Reply): Client {
    Client(Running, k.phase, [reply], k.clock, None, k.held)
  }

  // A waiter waits elsewhere, and is told nothing.
  function MovedTo(k: Client, p: Place): Client {
    Client(Stalled, k.phase, [], k.clock, Some(p), k.held)
  }

  predicate Others(s: State, r: State, who: set<nat>) {
    |r.clients| == |s.clients| && forall d :: 0 <= d < |s.clients| && d !in who ==> r.clients[d] == s.clients[d]
  }

  // ---------------------------------------------------------------- effects

  predicate InitEffect(s: State, r: State, c: nat, call: Call)
    requires c < |s.clients| && s.clients[c].phase.Sent?
  {
    && r.futexes == s.futexes && r.joiners == s.joiners && Others(s, r, {c})
    && r.mutexes == s.mutexes + (if call.MutexInit? then [Mutex(None, [])] else [])
    && r.conds == s.conds + (if call.CondInit? then [Cond([], [])] else [])
    && r.barriers == s.barriers + (if call.BarrierInit? then [Barrier(call.count, [], 0)] else [])
    && r.clients[c] == Told(s.clients[c], Index(if call.MutexInit? then |s.mutexes| else if call.CondInit? then |s.conds| else |s.barriers|))
  }

  predicate OnlyMutexes(s: State, r: State) {
    r.conds == s.conds && r.barriers == s.barriers && r.futexes == s.futexes && r.joiners == s.joiners
  }

  predicate OnlyMutexesAndConds(s: State, r: State) {
    r.barriers == s.barriers && r.futexes == s.futexes && r.joiners == s.joiners
  }

  predicate OnlyJoiners(s: State, r: State) {
    r.mutexes == s.mutexes && r.conds == s.conds && r.barriers == s.barriers && r.futexes == s.futexes
  }

  // A free mutex is taken, and the sender told at its own time; another one has the sender at the end of its queue.
  predicate LockEffect(s: State, r: State, c: nat, m: nat)
    requires c < |s.clients| && s.clients[c].phase.Sent? && m < |s.mutexes|
  {
    var (x, k) := (s.mutexes[m], s.clients[c]);
    && OnlyMutexes(s, r) && Others(s, r, {c})
    && if x.owner.None? then
         r.mutexes == s.mutexes[m := Mutex(Some(c), x.waiting)] && r.clients[c] == Told(k, Timed(MUTEX_LOCK_RESPONSE, k.clock))
       else
         r.mutexes == s.mutexes[m := Mutex(x.owner, x.waiting + [c])] && r.clients[c] == WaitsIn(k, InMutex(m))
  }

  // A mutex is given up: it goes to the first in its queue, who runs again and is told the time
  // of the sender; with nobody in the queue it is free.  Nobody else is told anything.
  predicate HandOver(s: State, r: State, c: nat, m: nat)
    requires c < |s.clients| && m < |s.mutexes|
  {
    var w := s.mutexes[m].waiting;
    if w == [] then r.mutexes == s.mutexes[m := Mutex(None, [])] && Others(s, r, {c})
    else
      && r.mutexes == s.mutexes[m := Mutex(Some(w[0]), w[1..])] && Others(s, r, {c, w[0]})
      && w[0] < |s.clients| && w[0] != c
      && r.clients[w[0]] == Woken(s.clients[w[0]], Timed(MUTEX_LOCK_RESPONSE, s.clients[c].clock))
  }

  predicate UnlockEffect(s: State, r: State, c: nat, m: nat)
    requires c < |s.clients| && s.clients[c].phase.Sent? && m < |s.mutexes|
  {
    && OnlyMutexes(s, r) && HandOver(s, r, c, m) && |r.clients| == |s.clients|
    && r.clients[c] == Told(s.clients[c], Plain(MUTEX_UNLOCK_RESPONSE))
  }

  predicate CondWaitEffect(s: State, r: State, c: nat, k: nat, m: nat)
    requires c < |s.clients| && s.clients[c].phase.Sent? && k < |s.conds| && m < |s.mutexes|
  {
    && OnlyMutexesAndConds(s, r) && HandOver(s, r, c, m) && |r.clients| == |s.clients|
    && r.conds == s.conds[k := Cond(s.conds[k].waiting + [c], s.conds[k].muxes + [m])]
    && r.clients[c] == WaitsIn(s.clients[c], InCond(k))
  }

  // The first waiter asks for the first mutex on record: a free one is its own at the time of the
  // sender, another one has it at the end of its queue.  The last mutex on record is dropped.
  predicate SignalEffect(s: State, r: State, c: nat, k: nat)
    requires c < |s.clients| && s.clients[c].phase.Sent? && k < |s.conds| && Shape(s)
  {
    var (w, ms) := (s.conds[k].waiting, s.conds[k].muxes);
    && OnlyMutexesAndConds(s, r) && |r.clients| == |s.clients| && r.clients[c] == Told(s.clients[c], Plain(COND_SIGNAL_RESPONSE))
    && if w == [] then r.mutexes == s.mutexes && r.conds == s.conds && Others(s, r, {c})
       else
         assert CondOk(s.conds[k], |s.clients|, |s.mutexes|);
         var (d, m) := (w[0], ms[0]);
         && r.conds == s.conds[k := Cond(w[1..], ms[..|ms| - 1])] && Others(s, r, {c, d}) && d != c
         && if s.mutexes[m].owner.None? then
              && r.mutexes == s.mutexes[m := Mutex(Some(d), s.mutexes[m].waiting)]
              && r.clients[d] == Woken(s.clients[d], Timed(MUTEX_LOCK_RESPONSE, s.clients[c].clock))
            else
              && r.mutexes == s.mutexes[m := Mutex(s.mutexes[m].owner, s.mutexes[m].waiting + [d])]
              && r.clients[d] == MovedTo(s.clients[d], InMutex(m))
  }

  // Those of the first n waiters that have mutex m, in order.
  function Asking(w: seq<nat>, ms: seq<nat>, m: nat, n: nat): seq<nat>
    requires n <= |w| == |ms|
  {
    if n == 0 then [] else Asking(w, ms, m, n - 1) + if ms[n - 1] == m then [w[n - 1]] else []
  }

  // A mutex after all in the list have asked for it.
  function Asked(x: Mutex, list: seq<nat>): Mutex {
    if x.owner.None? && list != [] then Mutex(Some(list[0]), x.waiting + list[1..]) else Mutex(x.owner, x.waiting + list)
  }

  // Waiter i is the first to ask for a free mutex.
  predicate Gets(mutexes: seq<Mutex>, ms: seq<nat>, i: nat)
    requires i < |ms| && AllBelow(ms, |mutexes|)
  {
    mutexes[ms[i]].owner.None? && ms[i] !in ms[..i]
  }

  // Waiter d with mutex ms[i], after it has asked
  function AfterAsking(s: State, mutexes: seq<Mutex>, ms: seq<nat>, i: nat, d: nat, time: nat): Client
    requires d < |s.clients| && i < |ms| && AllBelow(ms, |mutexes|)
  {
    if Gets(mutexes, ms, i) then Woken(s.clients[d], Timed(MUTEX_LOCK_RESPONSE, time)) else MovedTo(s.clients[d], InMutex(ms[i]))
  }

  // All waiters ask for their mutexes, in order; the first to ask for a free one is told so at the
  // time of the sender, the others are told nothing.
  predicate BroadcastEffect(s: State, r: State, c: nat, k: nat)
    requires c < |s.clients| && s.clients[c].phase.Sent? && k < |s.conds| && CondOk(s.conds[k], |s.clients|, |s.mutexes|)
  {
    var (w, ms) := (s.conds[k].waiting, s.conds[k].muxes);
    && OnlyMutexesAndConds(s, r) && |r.clients| == |s.clients| && r.clients[c] == Told(s.clients[c], Plain(COND_BROADCAST_RESPONSE))
    && r.conds == s.conds[k := Cond([], [])] && |r.mutexes| == |s.mutexes|
    && (forall m :: 0 <= m < |s.mutexes| ==> r.mutexes[m] == Asked(s.mutexes[m], Asking(w, ms, m, |w|)))
    && (forall i :: 0 <= i < |w| ==> r.clients[w[i]] == AfterAsking(s, s.mutexes, ms, i, w[i], s.clients[c].clock))
    && (forall d :: 0 <= d < |s.clients| && d != c && d !in w ==> r.clients[d] == s.clients[d])
  }

  // A join of a thread that has exited returns; another one waits for it.
  predicate JoinEffect(s: State, r: State, c: nat, t: nat)
    requires c < |s.clients| == |s.joiners| && s.clients[c].phase.Sent? && t < |s.joiners|
  {
    && OnlyJoiners(s, r) && Others(s, r, {c})
    && if s.clients[t].status.Idle? then
         r.joiners == s.joiners[t := []] && r.clients[c] == Told(s.clients[c], JoinReply(s.clients[c].clock))
       else
         r.joiners == s.joiners[t := [c]] && r.clients[c] == WaitsIn(s.clients[c], InJoin(t))
  }

  // The thread is gone, and who waited for it runs again and is told the time.
  predicate ExitEffect(s: State, r: State, c: nat)
    requires c < |s.clients| == |s.joiners| && s.clients[c].phase.Sent?
  {
    var (w, k) := (s.joiners[c], s.clients[c]);
    && OnlyJoiners(s, r) && r.joiners == s.joiners[c := []] && |r.clients| == |s.clients|
    && r.clients[c] == Client(Idle, Gone, [], k.clock, None, k.held)
    && if w == [] then Others(s, r, {c})
       else
         && Others(s, r, {c, w[0]}) && w[0] < |s.clients| && w[0] != c
         && r.clients[w[0]] == Woken(s.clients[w[0]], JoinReply(k.clock))
  }

  // ---------------------------------------------------------------- before the request

  lemma {:induction false} SenderBefore(s: State, c: nat)
    requires Global(s) && c < |s.clients| && s.clients[c].phase.Sent?
    ensures var k := s.clients[c]; k.inbox == [] && k.place == None && k.status == Running
    ensures Ready(s) && Ready(Accept(s, c))
  {
    GlobalReady(s);
    assert CoreOk(s.clients, QueuesOf(s), c, {});
    SameQueues(s, Accept(s, c));
    SameShape(s, Accept(s, c));
    forall p ensures AllBelow(Queue(Accept(s, c), p), |s.clients|) {
      assert AllBelow(Queue(s, p), |s.clients|);
    }
  }

  lemma {:induction false} WaiterBefore(s: State, p: Place, d: nat)
    requires Global(s) && d in Queue(s, p)
    ensures d < |s.clients| && s.clients[d].phase.Blocked?
    ensures var k := s.clients[d]; k.inbox == [] && k.place == Some(p) && k.status == Stalled
  {
    assert PlaceOk(s.clients, p, QueuesOf(s)(p));
    assert CoreOk(s.clients, QueuesOf(s), d, {});
  }

  // ---------------------------------------------------------------- one request each

  lemma {:induction false} ServedInit(s: State, c: nat, call: Call) returns (r: State)
    requires Global(s) && c < |s.clients| && s.clients[c].phase == Sent(call) && (call.MutexInit? || call.CondInit? || call.BarrierInit?)
    ensures r == DoInit(Accept(s, c), c, call) && InitEffect(s, r, c, call)
  {
    SenderBefore(s, c);
    r := DoInit(Accept(s, c), c, call);
  }

  lemma {:induction false} ServedLock(s: State, c: nat, m: nat) returns (r: State)
    requires Global(s) && c < |s.clients| && s.clients[c].phase.Sent? && m < |s.mutexes|
    ensures r == DoLock(Accept(s, c), c, m, s.clients[c].clock) && LockEffect(s, r, c, m)
  {
    SenderBefore(s, c);
    r := DoLock(Accept(s, c), c, m, s.clients[c].clock);
  }

  // Unlock, and tell the next owner.
  lemma {:induction false} PassedOn(s: State, m: nat, time: nat) returns (r: State)
    requires m < |s.mutexes| && AllBelow(s.mutexes[m].waiting, |s.clients|)
    ensures NextOwner(s, m).Some? ==> NextOwner(s, m).value < |s.clients|
    ensures r == PassOn(s, m, time) && OnlyMutexes(s, r)
    ensures var w := s.mutexes[m].waiting;
      if w == [] then r.mutexes == s.mutexes[m := Mutex(None, [])] && r.clients == s.clients
      else
        && r.mutexes == s.mutexes[m := Mutex(Some(w[0]), w[1..])]
        && r.clients == s.clients[w[0] := s.clients[w[0]].(status := Running, place := None,
                                                          inbox := s.clients[w[0]].inbox + [Timed(MUTEX_LOCK_RESPONSE, time)])]
  {
    r := PassOn(s, m, time);
  }

  lemma {:induction false} HandsOver(s: State, a: State, r: State, c: nat, m: nat)
    requires Global(s) && c < |s.clients| && s.clients[c].phase.Sent? && m < |s.mutexes| && a.mutexes == s.mutexes && Others(s, a, {c})
    requires var (w, t) := (s.mutexes[m].waiting, s.clients[c].clock);
      if w == [] then r.mutexes == s.mutexes[m := Mutex(None, [])] && r.clients == a.clients
      else
        && r.mutexes == s.mutexes[m := Mutex(Some(w[0]), w[1..])] && w[0] < |a.clients|
        && r.clients == a.clients[w[0] := a.clients[w[0]].(status := Running, place := None,
                                                          inbox := a.clients[w[0]].inbox + [Timed(MUTEX_LOCK_RESPONSE, t)])]
    ensures HandOver(s, r, c, m) && |r.clients| == |s.clients| && r.clients[c] == a.clients[c]
  {
    SenderBefore(s, c);
    var w := Queue(s, InMutex(m));
    if w != [] {
      WaiterBefore(s, InMutex(m), w[0]);
    }
  }

  lemma {:induction false} ServedUnlock(s: State, c: nat, m: nat) returns (r: State)
    requires Global(s) && c < |s.clients| && s.clients[c].phase.Sent? && m < |s.mutexes|
    ensures Queued(Accept(s, c)) && r == DoUnlock(Accept(s, c), c, m, s.clients[c].clock) && UnlockEffect(s, r, c, m)
  {
    SenderBefore(s, c);
    var a := Accept(s, c);
    assert AllBelow(Queue(a, InMutex(m)), |a.clients|);
    var u := PassedOn(a, m, s.clients[c].clock);
    HandsOver(s, a, u, c, m);
    r := Send(u, c, Plain(MUTEX_UNLOCK_RESPONSE));
  }

  lemma {:induction false} ServedCondWait(s: State, c: nat, k: nat, m: nat) returns (r: State)
    requires Global(s) && c < |s.clients| && s.clients[c].phase.Sent? && k < |s.conds| && m < |s.mutexes|
    ensures Queued(Accept(s, c)) && r == DoCondWait(Accept(s, c), c, k, m, s.clients[c].clock) && CondWaitEffect(s, r, c, k, m)
  {
    SenderBefore(s, c);
    var a := Await(Accept(s, c), c, k, m);
    assert a.conds == s.conds[k := Cond(s.conds[k].waiting + [c], s.conds[k].muxes + [m])];
    assert AllBelow(Queue(Accept(s, c), InMutex(m)), |s.clients|);
    r := PassedOn(a, m, s.clients[c].clock);
    HandsOver(s, a, r, c, m);
  }

  // A waiter leaves a condition variable and asks for a mutex.
  lemma {:induction false} AsksFor(s: State, k: nat, muxes: seq<nat>) returns (r: State)
    requires CanWake(s, k)
    ensures var (d, m) := (s.conds[k].waiting[0], s.conds[k].muxes[0]);
      && r == LockMutex(SetMuxes(Unpark(s, InCond(k)), k, muxes), m, d)
      && r.conds == s.conds[k := Cond(s.conds[k].waiting[1..], muxes)] && OnlyMutexesAndConds(s, r)
      && if s.mutexes[m].owner.None? then
           && r.mutexes == s.mutexes[m := Mutex(Some(d), s.mutexes[m].waiting)]
           && r.clients == s.clients[d := s.clients[d].(status := Running, place := None)]
         else
           && r.mutexes == s.mutexes[m := Mutex(s.mutexes[m].owner, s.mutexes[m].waiting + [d])]
           && r.clients == s.clients[d := s.clients[d].(status := Stalled, place := Some(InMutex(m)))]
  {
    var (d, m) := (s.conds[k].waiting[0], s.conds[k].muxes[0]);
    var u := SetMuxes(Unpark(s, InCond(k)), k, muxes);
    assert u.conds == s.conds[k := Cond(s.conds[k].waiting[1..], muxes)];
    r := LockMutex(u, m, d);
  }

  lemma {:induction false} ServedSignal(s: State, c: nat, k: nat) returns (r: State)
    requires Global(s) && c < |s.clients| && s.clients[c].phase.Sent? && k < |s.conds|
    ensures Shape(Accept(s, c)) && r == DoSignal(Accept(s, c), c, k, s.clients[c].clock) && SignalEffect(s, r, c, k)
  {
    SenderBefore(s, c);
    var (a, w, ms) := (Accept(s, c), s.conds[k].waiting, s.conds[k].muxes);
    assert CondOk(s.conds[k], |s.clients|, |s.mutexes|);
    var told := a;
    if w != [] {
      assert w == Queue(s, InCond(k));
      WaiterBefore(s, InCond(k), w[0]);
      var u := AsksFor(a, k, ms[..|ms| - 1]);
      assert u == WakeOne(a, k);
      told := if Free(a, ms[0]) then Send(u, w[0], Granted(s.clients[c].clock)) else u;
    }
    r := Send(told, c, Plain(COND_SIGNAL_RESPONSE));
  }

  lemma {:induction false} ServedJoin(s: State, c: nat, t: nat) returns (r: State)
    requires Global(s) && c < |s.clients| && s.clients[c].phase.Sent? && t < |s.joiners| && s.joiners[t] == []
    ensures Queued(Accept(s, c)) && t < |s.clients|
    ensures r == DoJoin(Accept(s, c), c, t, s.clients[c].clock) && JoinEffect(s, r, c, t)
  {
    SenderBefore(s, c);
    r := DoJoin(Accept(s, c), c, t, s.clients[c].clock);
    assert [] + [c] == [c] && [c][1..] == [] && s.joiners[t := [c]][t := []] == s.joiners[t := []];
  }

  lemma {:induction false} ServedExit(s: State, c: nat) returns (r: State)
    requires Global(s) && c < |s.clients| && s.clients[c].phase.Sent? && |s.joiners[c]| <= 1
    ensures Queued(Accept(s, c)) && r == DoExit(Accept(s, c), c, s.clients[c].clock) && ExitEffect(s, r, c)
  {
    SenderBefore(s, c);
    var w := s.joiners[c];
    if w != [] {
      assert w == Queue(s, InJoin(c));
      WaiterBefore(s, InJoin(c), w[0]);
      assert w[1..] == [];
    }
    r := DoExit(Accept(s, c), c, s.clients[c].clock);
  }

  // ---------------------------------------------------------------- broadcast

  lemma {:induction false} SendAllOnly(s: State, list: seq<nat>, reply: Reply)
    ensures SendAll(s, list, reply) == s.(clients := SendAll(s, list, reply).clients) && |SendAll(s, list, reply).clients| == |s.clients|
    decreases |list|
  {
    if list != [] {
      SendAllOnly(if list[0] < |s.clients| then Send(s, list[0], reply) else s, list[1..], reply);
    }
  }

  lemma {:induction false} SendAllClient(s: State, list: seq<nat>, reply: Reply, d: nat)
    requires NoTwice(list) && AllBelow(list, |s.clients|) && d < |s.clients|
    ensures |SendAll(s, list, reply).clients| == |s.clients|
    ensures SendAll(s, list, reply).clients[d] ==
      if d in list then s.clients[d].(inbox := s.clients[d].inbox + [reply]) else s.clients[d]
    decreases |list|
  {
    if list != [] {
      SendAllClient(Send(s, list[0], reply), list[1..], reply, d);
      assert list == [list[0]] + list[1..];
    }
  }

  lemma {:induction false} AskingNone(w: seq<nat>, ms: seq<nat>, m: nat, n: nat)
    requires n <= |w| == |ms|
    ensures Asking(w, ms, m, n) == [] <==> m !in ms[..n]
  {
    if n > 0 {
      AskingNone(w, ms, m, n - 1);
      assert ms[..n] == ms[..n - 1] + [ms[n - 1]];
    }
  }

  // Those that got their mutex, among the first n.
  function Lucky(mutexes: seq<Mutex>, w: seq<nat>, ms: seq<nat>, n: nat): seq<nat>
    requires n <= |w| == |ms| && AllBelow(ms, |mutexes|)
  {
    if n == 0 then [] else Lucky(mutexes, w, ms, n - 1) + if Gets(mutexes, ms, n - 1) then [w[n - 1]] else []
  }

  lemma {:induction false} LuckyExact(mutexes: seq<Mutex>, w: seq<nat>, ms: seq<nat>, n: nat, d: nat)
    requires n <= |w| == |ms| && AllBelow(ms, |mutexes|) && NoTwice(w)
    ensures NoTwice(Lucky(mutexes, w, ms, n))
    ensures d in Lucky(mutexes, w, ms, n) <==> exists i: nat :: i < n && w[i] == d && Gets(mutexes, ms, i)
  {
    if n > 0 {
      LuckyExact(mutexes, w, ms, n - 1, d);
      LuckyExact(mutexes, w, ms, n - 1, w[n - 1]);
    }
  }

  // A waiter in the loop: runs, or waits for its mutex; not told yet.
  function Asks(k: Client, gets: bool, m: nat): Client {
    if gets then k.(status := Running, place := None) else k.(status := Stalled, place := Some(InMutex(m)))
  }

  // The loop of SimCond::broadcast after n turns.
  ghost predicate After(s: State, k: nat, n: nat, x: Waking)
    requires k < |s.conds| && CondOk(s.conds[k], |s.clients|, |s.mutexes|) && n <= |s.conds[k].waiting|
  {
    var (w, ms) := (s.conds[k].waiting, s.conds[k].muxes);
    && OnlyMutexesAndConds(s, x.s) && x.s.conds == s.conds[k := Cond(w[n..], ms[n..])]
    && |x.s.mutexes| == |s.mutexes| && x.woken == Lucky(s.mutexes, w, ms, n)
    && (forall m :: 0 <= m < |s.mutexes| ==> x.s.mutexes[m] == Asked(s.mutexes[m], Asking(w, ms, m, n)))
    && ClientsAsked(s.clients, x.s.clients, s.mutexes, w, ms, n)
  }

  lemma {:induction false} AskedMore(x: Mutex, list: seq<nat>, d: nat)
    ensures Asked(x, list + [d]) == (var y := Asked(x, list); if y.owner.None? then Mutex(Some(d), y.waiting) else Mutex(y.owner, y.waiting + [d]))
  {
    assert list != [] ==> (list + [d])[1..] == list[1..] + [d];
    if x.owner.None? && list != [] {
      assert x.waiting + (list[1..] + [d]) == x.waiting + list[1..] + [d];
    } else {
      assert x.waiting + (list + [d]) == x.waiting + list + [d];
      assert ([] + [d])[1..] == [];
    }
  }

  // The mutexes after one turn more
  lemma {:induction false} AskedNext(xs: seq<Mutex>, ys: seq<Mutex>, zs: seq<Mutex>, w: seq<nat>, ms: seq<nat>, n: nat)
    requires n < |w| == |ms| && AllBelow(ms, |xs|) && |ys| == |xs|
    requires forall m :: 0 <= m < |xs| ==> ys[m] == Asked(xs[m], Asking(w, ms, m, n))
    requires var (y, d) := (ys[ms[n]], w[n]);
      zs == ys[ms[n] := if y.owner.None? then Mutex(Some(d), y.waiting) else Mutex(y.owner, y.waiting + [d])]
    ensures forall m :: 0 <= m < |xs| ==> zs[m] == Asked(xs[m], Asking(w, ms, m, n + 1))
    ensures Gets(xs, ms, n) <==> ys[ms[n]].owner.None?
  {
    AskingNone(w, ms, ms[n], n);
    AskedMore(xs[ms[n]], Asking(w, ms, ms[n], n), w[n]);
    forall m | 0 <= m < |xs| ensures zs[m] == Asked(xs[m], Asking(w, ms, m, n + 1)) {
      assert m != ms[n] ==> Asking(w, ms, m, n + 1) == Asking(w, ms, m, n);
    }
  }

  // One turn of the loop
  predicate OneAsks(x: Waking, y: Waking, k: nat) {
    && CanWake(x.s, k) && OnlyMutexesAndConds(x.s, y.s)
    && var (d, m) := (x.s.conds[k].waiting[0], x.s.conds[k].muxes[0]);
       var (z, free) := (x.s.mutexes[m], x.s.mutexes[m].owner.None?);
       && y.s.conds == x.s.conds[k := Cond(x.s.conds[k].waiting[1..], x.s.conds[k].muxes[1..])]
       && y.s.mutexes == x.s.mutexes[m := if free then Mutex(Some(d), z.waiting) else Mutex(z.owner, z.waiting + [d])]
       && y.s.clients == x.s.clients[d := Asks(x.s.clients[d], free, m)]
       && y.woken == x.woken + (if free then [d] else [])
  }

  lemma {:induction false} WakeNextAsks(x: Waking, k: nat) returns (y: Waking)
    requires CanWake(x.s, k)
    ensures y == WakeNext(x, k) && OneAsks(x, y, k)
  {
    var _ := AsksFor(x.s, k, x.s.conds[k].muxes[1..]);
    y := WakeNext(x, k);
    assert x.woken + [] == x.woken;
  }

  // The first n waiters have asked, the other clients are as they were.
  predicate ClientsAsked(cs: seq<Client>, xs: seq<Client>, mutexes: seq<Mutex>, w: seq<nat>, ms: seq<nat>, n: nat)
    requires n <= |w| == |ms| && AllBelow(ms, |mutexes|) && AllBelow(w, |cs|)
  {
    && |xs| == |cs|
    && (forall i :: 0 <= i < n ==> xs[w[i]] == Asks(cs[w[i]], Gets(mutexes, ms, i), ms[i]))
    && (forall d :: 0 <= d < |cs| && d !in w[..n] ==> xs[d] == cs[d])
  }

  lemma {:induction false} ClientAsks(cs: seq<Client>, xs: seq<Client>, ys: seq<Client>, mutexes: seq<Mutex>, w: seq<nat>, ms: seq<nat>, n: nat)
    requires n < |w| == |ms| && AllBelow(ms, |mutexes|) && AllBelow(w, |cs|) && NoTwice(w)
    requires ClientsAsked(cs, xs, mutexes, w, ms, n) && ys == xs[w[n] := Asks(xs[w[n]], Gets(mutexes, ms, n), ms[n])]
    ensures ClientsAsked(cs, ys, mutexes, w, ms, n + 1)
  {
    assert w[..n + 1] == w[..n] + [w[n]] && w[n] !in w[..n];
  }

  lemma {:induction false} AfterNext(s: State, k: nat, n: nat, x: Waking, y: Waking)
    requires k < |s.conds| && CondOk(s.conds[k], |s.clients|, |s.mutexes|) && n < |s.conds[k].waiting| && NoTwice(s.conds[k].waiting)
    requires After(s, k, n, x) && OneAsks(x, y, k)
    ensures After(s, k, n + 1, y)
  {
    var (w, ms) := (s.conds[k].waiting, s.conds[k].muxes);
    assert w[n..][1..] == w[n + 1..] && ms[n..][1..] == ms[n + 1..];
    AskedNext(s.mutexes, x.s.mutexes, y.s.mutexes, w, ms, n);
    ClientAsks(s.clients, x.s.clients, y.s.clients, s.mutexes, w, ms, n);
    assert y.s.conds == s.conds[k := Cond(w[n + 1..], ms[n + 1..])];
  }

  // What holds after each turn holds after the last.
  lemma {:induction false} RepeatCounts<T(!new)>(f: T -> T, n: nat, i: nat, x: T, holds: (nat, T) -> bool)
    requires i <= n && holds(i, x) && forall j: nat, y :: j < n && holds(j, y) ==> holds(j + 1, f(y))
    ensures holds(n, Repeat(f, n - i, x))
    decreases n - i
  {
    if i < n {
      RepeatCounts(f, n, i + 1, f(x), holds);
    }
  }

  lemma {:induction false} WakeAllAsks(s: State, k: nat) returns (x: Waking)
    requires k < |s.conds| && CondOk(s.conds[k], |s.clients|, |s.mutexes|) && NoTwice(s.conds[k].waiting)
    ensures x == WakeAll(s, k) && After(s, k, |s.conds[k].waiting|, x)
  {
    var n := |s.conds[k].waiting|;
    AfterNone(s, k);
    forall j: nat, y | j < n && After(s, k, j, y) ensures After(s, k, j + 1, WakeNext(y, k)) {
      var z := WakeNextAsks(y, k);
      AfterNext(s, k, j, y, z);
    }
    RepeatCounts(v => WakeNext(v, k), n, 0, Waking(s, []), (j: nat, y) => j <= n && After(s, k, j, y));
    x := WakeAll(s, k);
  }

  lemma {:induction false} AfterNone(s: State, k: nat)
    requires k < |s.conds| && CondOk(s.conds[k], |s.clients|, |s.mutexes|)
    ensures After(s, k, 0, Waking(s, []))
  {
    var (w, ms) := (s.conds[k].waiting, s.conds[k].muxes);
    assert w[0..] == w && ms[0..] == ms && s.conds[k := Cond(w, ms)] == s.conds;
    forall m | 0 <= m < |s.mutexes| ensures s.mutexes[m] == Asked(s.mutexes[m], Asking(w, ms, m, 0)) {
      assert s.mutexes[m].waiting + [] == s.mutexes[m].waiting;
    }
  }

  // The clients once those that got their mutex have been told so
  lemma {:induction false} LuckyTold(s: State, k: nat, x: Waking, t: nat, d: nat) returns (u: State)
    requires k < |s.conds| && CondOk(s.conds[k], |s.clients|, |s.mutexes|) && NoTwice(s.conds[k].waiting)
    requires After(s, k, |s.conds[k].waiting|, x) && d < |s.clients|
    requires d in s.conds[k].waiting ==> s.clients[d].inbox == []
    ensures u == SendAll(x.s, x.woken, Granted(t)) && u == x.s.(clients := u.clients) && |u.clients| == |s.clients|
    ensures d !in s.conds[k].waiting ==> u.clients[d] == s.clients[d]
    ensures forall i :: 0 <= i < |s.conds[k].waiting| && s.conds[k].waiting[i] == d ==>
      u.clients[d] == AfterAsking(s, s.mutexes, s.conds[k].muxes, i, d, t)
  {
    var (w, ms) := (s.conds[k].waiting, s.conds[k].muxes);
    u := SendAll(x.s, x.woken, Granted(t));
    SendAllOnly(x.s, x.woken, Granted(t));
    LuckyBelow(s.mutexes, w, ms, |w|, |s.clients|);
    SendAllClient(x.s, x.woken, Granted(t), d);
    LuckyExact(s.mutexes, w, ms, |w|, d);
    assert w[..|w|] == w;
  }

  // Those that got their mutex are told so, and the sender is answered.
  lemma {:induction false} BroadcastTold(s: State, c: nat, k: nat, x: Waking) returns (r: State)
    requires Global(s) && c < |s.clients| && s.clients[c].phase.Sent? && k < |s.conds| && CondOk(s.conds[k], |s.clients|, |s.mutexes|)
    requires After(Accept(s, c), k, |s.conds[k].waiting|, x)
    ensures r == SendAll(SendAll(x.s, x.woken, Granted(s.clients[c].clock)), [c], Plain(COND_BROADCAST_RESPONSE))
    ensures BroadcastEffect(s, r, c, k)
  {
    SenderBefore(s, c);
    var (a, w, ms, t) := (Accept(s, c), s.conds[k].waiting, s.conds[k].muxes, s.clients[c].clock);
    assert w == Queue(s, InCond(k)) && PlaceOk(s.clients, InCond(k), QueuesOf(s)(InCond(k)));
    assert c !in w by {
      if c in w { WaiterBefore(s, InCond(k), c); }
    }
    var u := LuckyTold(a, k, x, t, c);
    r := Send(u, c, Plain(COND_BROADCAST_RESPONSE));
    assert w[|w|..] == [] && ms[|w|..] == [];
    forall i | 0 <= i < |w| ensures r.clients[w[i]] == AfterAsking(s, s.mutexes, ms, i, w[i], t) {
      WaiterBefore(s, InCond(k), w[i]);
      var _ := LuckyTold(a, k, x, t, w[i]);
    }
    forall d | 0 <= d < |s.clients| && d != c && d !in w ensures r.clients[d] == s.clients[d] {
      var _ := LuckyTold(a, k, x, t, d);
    }
  }

  lemma {:induction false} LuckyBelow(mutexes: seq<Mutex>, w: seq<nat>, ms: seq<nat>, n: nat, bound: nat)
    requires n <= |w| == |ms| && AllBelow(ms, |mutexes|) && NoTwice(w) && AllBelow(w, bound)
    ensures NoTwice(Lucky(mutexes, w, ms, n)) && AllBelow(Lucky(mutexes, w, ms, n), bound)
  {
    LuckyExact(mutexes, w, ms, n, 0);
    var list := Lucky(mutexes, w, ms, n);
    forall j | 0 <= j < |list| ensures list[j] < bound {
      LuckyExact(mutexes, w, ms, n, list[j]);
    }
  }

  lemma {:induction false} ServedBroadcast(s: State, c: nat, k: nat) returns (r: State)
    requires Global(s) && c < |s.clients| && s.clients[c].phase.Sent? && k < |s.conds|
    ensures CondOk(s.conds[k], |s.clients|, |s.mutexes|)
    ensures r == DoBroadcast(Accept(s, c), c, k, s.clients[c].clock) && BroadcastEffect(s, r, c, k)
  {
    assert s.conds[k].waiting == Queue(s, InCond(k)) && PlaceOk(s.clients, InCond(k), QueuesOf(s)(InCond(k)));
    var x := WakeAllAsks(Accept(s, c), k);
    r := BroadcastTold(s, c, k, x);
  }

  // ---------------------------------------------------------------- every request

  // Barriers and futexes have effects of their own.
  predicate Covered(call: Call) {
    !call.BarrierWait? && !IsFutex(call)
  }

  predicate Effect(s: State, r: State, c: nat, call: Call)
    requires Shape(s) && c < |s.clients| && s.clients[c].phase == Sent(call) && Allowed(s, c, call) && Covered(call)
  {
    match call
    case MutexLock(m) => LockEffect(s, r, c, m)
    case MutexUnlock(m) => UnlockEffect(s, r, c, m)
    case CondWait(k, m) => CondWaitEffect(s, r, c, k, m)
    case CondSignal(k) => SignalEffect(s, r, c, k)
    case CondBroadcast(k) => BroadcastEffect(s, r, c, k)
    case Join(t) => JoinEffect(s, r, c, t)
    case Exit => ExitEffect(s, r, c)
    case _ => InitEffect(s, r, c, call)
  }

  lemma {:induction false} Served(s: State, c: nat, call: Call) returns (r: State)
    requires Global(s) && c < |s.clients| && s.clients[c].phase == Sent(call) && Allowed(s, c, call) && Covered(call) && |s.joiners[c]| <= 1
    ensures Ready(s) && r == Handle(s, c) && Effect(s, r, c, call)
  {
    SenderBefore(s, c);
    match call {
      case MutexLock(m) => r := ServedLock(s, c, m);
      case MutexUnlock(m) => r := ServedUnlock(s, c, m);
      case CondWait(k, m) => r := ServedCondWait(s, c, k, m);
      case CondSignal(k) => r := ServedSignal(s, c, k);
      case CondBroadcast(k) => r := ServedBroadcast(s, c, k);
      case Join(t) => r := ServedJoin(s, c, t);
      case Exit => r := ServedExit(s, c);
      case _ => r := ServedInit(s, c, call);
    }
  }

  // ---------------------------------------------------------------- who waits, waits for somebody

  // A mutex that somebody waits for has an owner.
  predicate WaitInv(s: State) {
    forall m :: 0 <= m < |s.mutexes| && s.mutexes[m].waiting != [] ==> s.mutexes[m].owner.Some?
  }

  // At most one thread waits for another to exit, and that one has not.
  predicate JoinInv(s: State) {
    |s.joiners| == |s.clients| && forall t :: 0 <= t < |s.joiners| ==> JoinOk(s.joiners[t], s.clients[t].status)
  }

  predicate JoinOk(joiners: seq<nat>, status: Status) {
    |joiners| <= 1 && (joiners != [] ==> !status.Idle?)
  }

  lemma {:induction false} EffectKeepsWait(s: State, r: State, c: nat, call: Call)
    requires Global(s) && c < |s.clients| && s.clients[c].phase == Sent(call) && Allowed(s, c, call) && Covered(call)
    requires WaitInv(s) && Effect(s, r, c, call)
    ensures WaitInv(r)
  {}

  lemma {:induction false} EffectKeepsJoin(s: State, r: State, c: nat, call: Call)
    requires Global(s) && c < |s.clients| && s.clients[c].phase == Sent(call) && Allowed(s, c, call) && Covered(call)
    requires JoinInv(s) && Effect(s, r, c, call)
    ensures JoinInv(r)
  {}

  lemma {:induction false} FutexJoiners(s: State, c: nat, call: Call)
    requires c < |s.clients| && IsFutex(call)
    ensures DoFutex(s, c, call).joiners == s.joiners
  {
    if !call.FutexWait? {
      var r := WakeFutex(s, call.addr, call.val);
      RepeatKeeps(x => Notify(x, call.addr), NonNegative(call.val), s, (x: State) => x.joiners == s.joiners);
      if call.FutexWakeOp? {
        RepeatKeeps(x => Notify(x, call.addr2), NonNegative(call.val2), r, (x: State) => x.joiners == s.joiners);
      } else if call.FutexCmpRequeue? {
        RepeatKeeps(x => Move(x, call.addr, call.addr2), NonNegative(call.val2), r, (x: State) => x.joiners == s.joiners);
      }
    }
  }

  lemma {:induction false} ReleaseJoiners(s: State, b: nat)
    requires QueueOk(s, InBarrier(b))
    ensures Release(s, InBarrier(b)).joiners == s.joiners
    decreases |Queue(s, InBarrier(b))|
  {
    if Queue(s, InBarrier(b)) != [] {
      ReleaseJoiners(Unpark(s, InBarrier(b)), b);
    }
  }

  lemma {:induction false} BarrierJoiners(s: State, c: nat, b: nat, time: nat)
    requires c < |s.clients| && b < |s.barriers| && Queued(s)
    ensures DoBarrierWait(s, c, b, time).joiners == s.joiners
  {
    var r := Arrive(s, b, c, time);
    assert AllBelow(Queue(s, InBarrier(b)), |s.clients|);
    if |r.barriers[b].waiting| >= r.barriers[b].count {
      ReleaseJoiners(r, b);
      SendAllOnly(Release(r, InBarrier(b)), r.barriers[b].waiting, Timed(BARRIER_WAIT_RESPONSE, r.barriers[b].maxTime));
    }
  }

  // Barriers and futexes leave mutexes and join waiters alone, and no thread exits.
  lemma {:induction false} OtherServed(s: State, c: nat, call: Call) returns (r: State)
    requires Global(s) && c < |s.clients| && s.clients[c].phase == Sent(call) && Allowed(s, c, call) && !Covered(call)
    ensures Ready(s) && r == Handle(s, c) && r.mutexes == s.mutexes && r.joiners == s.joiners && SamePhases(Accept(s, c), r)
  {
    SenderBefore(s, c);
    AcceptKeepsInv(s, c);
    var a := Accept(s, c);
    if call.BarrierWait? {
      DoBarrierWaitApart(a, c, call.barrier, s.clients[c].clock);
      BarrierJoiners(a, c, call.barrier, s.clients[c].clock);
      r := DoBarrierWait(a, c, call.barrier, s.clients[c].clock);
    } else {
      DoFutexApart(a, c, call);
      FutexJoiners(a, c, call);
      r := DoFutex(a, c, call);
    }
  }

  lemma {:induction false} OtherKeepsJoin(s: State, r: State, c: nat)
    requires Inv(s, {}) && Inv(r, {}) && c < |s.clients| && s.clients[c].phase.Sent? && r.joiners == s.joiners && SamePhases(Accept(s, c), r)
    requires JoinInv(s)
    ensures JoinInv(r)
  {
    forall t | 0 <= t < |r.joiners| ensures JoinOk(r.joiners[t], r.clients[t].status) {
      assert JoinOk(s.joiners[t], s.clients[t].status);
      assert CoreOk(s.clients, QueuesOf(s), t, {}) && CoreOk(r.clients, QueuesOf(r), t, {});
    }
  }

  lemma {:induction false} ServeKeepsBoth(s: State, c: nat)
    requires Global(s) && WaitInv(s) && JoinInv(s) && Enabled(s, Serve(c))
    ensures WaitInv(Handle(s, c)) && JoinInv(Handle(s, c))
  {
    var call := s.clients[c].phase.call;
    assert JoinOk(s.joiners[c], s.clients[c].status);
    if Covered(call) {
      var r := Served(s, c, call);
      EffectKeepsWait(s, r, c, call);
      EffectKeepsJoin(s, r, c, call);
    } else {
      var r := OtherServed(s, c, call);
      HandleKeepsInv(s, c);
      OtherKeepsJoin(s, r, c);
    }
  }

  lemma {:induction false} StepKeepsBoth(s: State, step: Step)
    requires Global(s) && WaitInv(s) && JoinInv(s) && Enabled(s, step)
    ensures WaitInv(Do(s, step)) && JoinInv(Do(s, step))
  {
    if step.Serve? {
      ServeKeepsBoth(s, step.core);
    } else {
      var r := Do(s, step);
      forall t | 0 <= t < |r.joiners| ensures JoinOk(r.joiners[t], r.clients[t].status) {
        assert JoinOk(s.joiners[t], s.clients[t].status);
      }
    }
  }

  lemma {:induction false} RunKeepsBoth(states: seq<State>, steps: seq<Step>, n: nat, i: nat)
    requires Run(states, steps) && Init(states[0], n) && i < |states|
    ensures Global(states[i]) && WaitInv(states[i]) && JoinInv(states[i])
  {
    RunKeepsGlobal(states, steps, n, i);
    if i > 0 {
      RunKeepsBoth(states, steps, n, i - 1);
      assert Taken(states, steps, i - 1);
      StepKeepsBoth(states[i - 1], steps[i - 1]);
    }
  }

  // ---------------------------------------------------------------- over every run

  // In every state of every run, nobody waits for a mutex that is free, at most one thread waits
  // for another to exit, and none for one that has.
  lemma {:induction false} WaitsForSomebody(states: seq<State>, steps: seq<Step>, n: nat, i: nat)
    requires Run(states, steps) && Init(states[0], n) && i < |states|
    ensures var s := states[i];
      && (forall m :: 0 <= m < |s.mutexes| && s.mutexes[m].waiting != [] ==> s.mutexes[m].owner.Some?)
      && |s.joiners| == |s.clients|
      && (forall t :: 0 <= t < |s.joiners| && s.joiners[t] != [] ==> |s.joiners[t]| == 1 && !s.clients[t].status.Idle?)
  {
    RunKeepsBoth(states, steps, n, i);
    forall t | 0 <= t < |states[i].joiners| ensures JoinOk(states[i].joiners[t], states[i].clients[t].status) {}
  }

  // In every run, each of these calls that is taken up has exactly its effect.
  lemma {:induction false} CallServed(states: seq<State>, steps: seq<Step>, n: nat, i: nat, c: nat, call: Call)
    requires Run(states, steps) && Init(states[0], n) && i < |steps| && steps[i] == Serve(c)
    requires c < |states[i].clients| && states[i].clients[c].phase == Sent(call) && Covered(call)
    ensures Shape(states[i]) && Allowed(states[i], c, call) && Effect(states[i], states[i + 1], c, call)
  {
    RunKeepsBoth(states, steps, n, i);
    assert Taken(states, steps, i);
    assert JoinOk(states[i].joiners[c], states[i].clients[c].status);
    var r := Served(states[i], c, call);
    assert r == states[i + 1];
  }

  // In every run: whoever has been told a time, at a lock, wait or barrier, goes on at that time or
  // at its own, whichever is later.
  lemma {:induction false} ToldClock(states: seq<State>, steps: seq<Step>, n: nat, i: nat, j: nat, d: nat, code: int, time: nat)
    requires Run(states, steps) && Init(states[0], n) && i <= j < |steps| && steps[j] == Receive(d)
    requires d < |states[i].clients| && states[i].clients[d].phase.Blocked? && states[i].clients[d].inbox == [Timed(code, time)]
    requires forall k :: i <= k < j ==> steps[k] != Receive(d)
    ensures d < |states[j + 1].clients| && states[j + 1].clients[d].phase.Computing?
    ensures var (before, after) := (states[i].clients[d].clock, states[j + 1].clients[d].clock);
      after >= before && after >= time && (after == before || after == time)
  {
    ReplyArrives(states, steps, n, i, j, d);
    assert Taken(states, steps, j);
  }

  // In every run: an unlock makes the first in the queue the owner, and once that one has received
  // its grant it goes on at the time of the unlock or at its own, whichever is later.
  lemma {:induction false} HandedOn(states: seq<State>, steps: seq<Step>, n: nat, i: nat, j: nat, c: nat, m: nat, d: nat)
    requires Run(states, steps) && Init(states[0], n) && i < j < |steps| && steps[i] == Serve(c) && steps[j] == Receive(d)
    requires c < |states[i].clients| && states[i].clients[c].phase == Sent(MutexUnlock(m)) && m < |states[i].mutexes|
    requires states[i].mutexes[m].waiting != [] && d == states[i].mutexes[m].waiting[0]
    requires forall k :: i < k < j ==> steps[k] != Receive(d)
    ensures d < |states[i].clients| && d < |states[j + 1].clients| && states[j + 1].clients[d].phase.Computing?
    ensures var (a, b) := (states[i].clients[c].clock, states[i].clients[d].clock);
      states[j + 1].clients[d].clock == if a > b then a else b
    ensures m < |states[i + 1].mutexes| && states[i + 1].mutexes[m] == Mutex(Some(d), states[i].mutexes[m].waiting[1..])
  {
    CallServed(states, steps, n, i, c, MutexUnlock(m));
    var s := states[i];
    assert UnlockEffect(s, states[i + 1], c, m);
    RunKeepsGlobal(states, steps, n, i);
    assert d in Queue(s, InMutex(m));
    WaiterBefore(s, InMutex(m), d);
    ToldClock(states, steps, n, i + 1, j, d, MUTEX_LOCK_RESPONSE, s.clients[c].clock);
  }
}
