/**
 Every request that the MCP handles keeps the invariant of SyncModel: a core is
 stalled exactly while it waits in one queue, and gets one reply of the kind its
 call checks for.
 */
module SyncProofs {
  import opened SyncModel
  import opened SyncHandlers

  // Calls, clocks and mutexes held are the same.
  predicate SamePhases(s: State, r: State) {
    |r.clients| == |s.clients| && forall c :: 0 <= c < |s.clients| ==>
      r.clients[c].phase == s.clients[c].phase && r.clients[c].clock == s.clients[c].clock && r.clients[c].held == s.clients[c].held
  }

  lemma InvQueued(s: State, debt: set<nat>)
    requires Inv(s, debt)
    ensures Queued(s)
  {
    forall p ensures AllBelow(Queue(s, p), |s.clients|) {
      assert PlaceOk(s.clients, p, QueuesOf(s)(p));
    }
  }

  lemma {:induction false} FrameInv(s: State, r: State, debt: set<nat>)
    requires Inv(s, debt) && r.clients == s.clients && forall p :: Queue(r, p) == Queue(s, p)
    ensures Inv(r, debt)
  {
    FrameKeepsInv(r, QueuesOf(s), debt);
  }

  // What every turn of a loop keeps, the loop keeps.
  lemma {:induction false} RepeatKeeps<T(!new)>(f: T -> T, n: nat, x: T, keeps: T -> bool)
    requires keeps(x) && forall y :: keeps(y) ==> keeps(f(y))
    ensures keeps(Repeat(f, n, x))
    decreases n
  {
    if n > 0 {
      RepeatKeeps(f, n - 1, f(x), keeps);
    }
  }

  // ---------------------------------------------------------------- mutexes

  lemma {:induction false} LockKeepsInv(s: State, m: nat, c: nat, debt: set<nat>)
    requires Inv(s, debt) && m < |s.mutexes| && c in debt && c < |s.clients|
    requires s.clients[c].phase.Blocked? && (CallOf(s, c).MutexLock? || CallOf(s, c).CondWait?)
    ensures SamePhases(s, LockMutex(s, m, c))
    ensures Inv(LockMutex(s, m, c), if Free(s, m) then debt else debt - {c})
  {
    if Free(s, m) {
      FrameInv(s, LockMutex(s, m, c), debt);
    } else {
      ParkKeepsInv(s, c, InMutex(m), debt);
    }
  }

  lemma {:induction false} PassOnKeepsInv(s: State, m: nat, time: nat, debt: set<nat>)
    requires Inv(s, debt) && m < |s.mutexes|
    ensures NextOwner(s, m).Some? ==> NextOwner(s, m).value < |s.clients|
    ensures Inv(PassOn(s, m, time), debt) && SamePhases(s, PassOn(s, m, time))
  {
    InvQueued(s, debt);
    assert AllBelow(Queue(s, InMutex(m)), |s.clients|);
    var o := NextOwner(s, m);
    if o.None? {
      FrameInv(s, PassOn(s, m, time), debt);
    } else {
      UnparkKeepsInv(s, InMutex(m), debt);
      var u := Unpark(s, InMutex(m));
      FrameInv(u, UnlockMutex(s, m), debt + {o.value});
      SendKeepsInv(UnlockMutex(s, m), o.value, Granted(time), debt + {o.value});
      assert debt + {o.value} - {o.value} == debt;
    }
  }

  // The last reply of a request goes to its sender.
  lemma {:induction false} AnswerKeepsInv(s: State, c: nat, reply: Reply) returns (r: State)
    requires Inv(s, {c}) && c < |s.clients| && s.clients[c].phase.Blocked? && Fits(CallOf(s, c), reply)
    ensures r == Send(s, c, reply) && Inv(r, {})
  {
    SendKeepsInv(s, c, reply, {c});
    assert {c} - {c} == {};
    r := Send(s, c, reply);
  }

  lemma {:induction false} DoLockKeepsInv(s: State, c: nat, m: nat, time: nat) returns (r: State)
    requires Inv(s, {c}) && c < |s.clients| && s.clients[c].phase == Blocked(MutexLock(m)) && m < |s.mutexes|
    ensures r == DoLock(s, c, m, time) && Inv(r, {})
  {
    LockKeepsInv(s, m, c, {c});
    if Free(s, m) {
      r := AnswerKeepsInv(LockMutex(s, m, c), c, Granted(time));
    } else {
      assert {c} - {c} == {};
      r := LockMutex(s, m, c);
    }
  }

  lemma {:induction false} DoUnlockKeepsInv(s: State, c: nat, m: nat, time: nat) returns (r: State)
    requires Inv(s, {c}) && c < |s.clients| && s.clients[c].phase == Blocked(MutexUnlock(m)) && m < |s.mutexes|
    ensures Queued(s) && r == DoUnlock(s, c, m, time) && Inv(r, {})
  {
    InvQueued(s, {c});
    PassOnKeepsInv(s, m, time, {c});
    r := AnswerKeepsInv(PassOn(s, m, time), c, Plain(MUTEX_UNLOCK_RESPONSE));
  }

  // ---------------------------------------------------------------- condition variables

  lemma {:induction false} DoCondWaitKeepsInv(s: State, c: nat, k: nat, m: nat, time: nat) returns (r: State)
    requires Inv(s, {c}) && c < |s.clients| && s.clients[c].phase == Blocked(CondWait(k, m))
    requires k < |s.conds| && m < |s.mutexes|
    ensures Queued(s) && r == DoCondWait(s, c, k, m, time) && Inv(r, {})
  {
    InvQueued(s, {c});
    ParkKeepsInv(s, c, InCond(k), {c});
    assert {c} - {c} == {};
    FrameInv(Park(s, c, InCond(k)), Await(s, c, k, m), {});
    PassOnKeepsInv(Await(s, c, k, m), m, time, {});
    r := PassOn(Await(s, c, k, m), m, time);
  }

  // A waiter goes from the condition variable to its mutex.
  lemma {:induction false} WakeKeepsInv(s: State, k: nat, muxes: seq<nat>, debt: set<nat>)
    requires Inv(s, debt) && k < |s.conds| && s.conds[k].waiting != []
    requires s.conds[k].muxes != [] && s.conds[k].muxes[0] < |s.mutexes|
    ensures var (d, m) := (s.conds[k].waiting[0], s.conds[k].muxes[0]);
      && d < |s.clients| && d !in debt && s.clients[d].phase.Blocked? && CallOf(s, d).CondWait?
      && var r := LockMutex(SetMuxes(Unpark(s, InCond(k)), k, muxes), m, d);
      && SamePhases(s, r) && Inv(r, if Free(s, m) then debt + {d} else debt)
  {
    var (d, m) := (s.conds[k].waiting[0], s.conds[k].muxes[0]);
    assert Queue(s, InCond(k)) == s.conds[k].waiting;
    UnparkKeepsInv(s, InCond(k), debt);
    var u := Unpark(s, InCond(k));
    FrameInv(u, SetMuxes(u, k, muxes), debt + {d});
    LockKeepsInv(SetMuxes(u, k, muxes), m, d, debt + {d});
    assert debt + {d} - {d} == debt;
  }

  lemma {:induction false} DoSignalKeepsInv(s: State, c: nat, k: nat, time: nat) returns (r: State)
    requires Inv(s, {c}) && c < |s.clients| && s.clients[c].phase == Blocked(CondSignal(k)) && k < |s.conds| && Shape(s)
    ensures r == DoSignal(s, c, k, time) && Inv(r, {})
  {
    assert CondOk(s.conds[k], |s.clients|, |s.mutexes|);
    var told := s;
    if s.conds[k].waiting != [] {
      var (d, m) := (s.conds[k].waiting[0], s.conds[k].muxes[0]);
      WakeKeepsInv(s, k, s.conds[k].muxes[..|s.conds[k].muxes| - 1], {c});
      told := WakeOne(s, k);
      if Free(s, m) {
        SendKeepsInv(told, d, Granted(time), {c} + {d});
        assert {c} + {d} - {d} == {c};
        told := Send(told, d, Granted(time));
      }
    }
    r := AnswerKeepsInv(told, c, Plain(COND_SIGNAL_RESPONSE));
  }

  function SetOf(list: seq<nat>): set<nat> {
    set x | x in list
  }

  // Cores that all wait for the same kind of reply.
  predicate Expecting(s: State, list: seq<nat>, reply: Reply) {
    forall i :: 0 <= i < |list| ==> list[i] < |s.clients| && s.clients[list[i]].phase.Blocked? && Fits(s.clients[list[i]].phase.call, reply)
  }

  lemma {:induction false} SendAllKeepsInv(s: State, list: seq<nat>, reply: Reply, debt: set<nat>) returns (r: State)
    requires Inv(s, debt + SetOf(list)) && NoTwice(list) && debt !! SetOf(list) && Expecting(s, list, reply)
    ensures r == SendAll(s, list, reply) && SamePhases(s, r) && Inv(r, debt)
    decreases |list|
  {
    if list == [] {
      assert debt + SetOf(list) == debt;
      r := s;
    } else {
      assert Expecting(s, [list[0]], reply);
      SendKeepsInv(s, list[0], reply, debt + SetOf(list));
      FirstOut(list);
      assert debt + SetOf(list) - {list[0]} == debt + SetOf(list[1..]);
      r := SendAllKeepsInv(Send(s, list[0], reply), list[1..], reply, debt);
    }
  }

  lemma {:induction false} FirstOut(list: seq<nat>)
    requires list != [] && NoTwice(list)
    ensures SetOf(list) == SetOf(list[1..]) + {list[0]} && list[0] !in SetOf(list[1..]) && NoTwice(list[1..])
  {
    assert list == [list[0]] + list[1..];
  }

  // The MCP still owes a reply to the woken waiters.
  ghost predicate Wakes(s0: State, k: nat, debt: set<nat>, time: nat, w: Waking) {
    && Inv(w.s, debt + SetOf(w.woken)) && SamePhases(s0, w.s)
    && NoTwice(w.woken) && debt !! SetOf(w.woken) && Expecting(w.s, w.woken, Granted(time))
  }

  lemma {:induction false} WakeNextKeeps(s0: State, k: nat, debt: set<nat>, time: nat, w: Waking)
    requires Wakes(s0, k, debt, time, w)
    ensures Wakes(s0, k, debt, time, WakeNext(w, k))
  {
    if CanWake(w.s, k) {
      var (d, m) := (w.s.conds[k].waiting[0], w.s.conds[k].muxes[0]);
      WakeKeepsInv(w.s, k, w.s.conds[k].muxes[1..], debt + SetOf(w.woken));
      var r := WakeNext(w, k).s;
      ExpectingSame(w.s, r, w.woken, Granted(time));
      if Free(w.s, m) {
        WokenMore(r, w.woken, d, debt, time);
      }
    }
  }

  lemma {:induction false} ExpectingSame(s: State, r: State, list: seq<nat>, reply: Reply)
    requires Expecting(s, list, reply) && SamePhases(s, r)
    ensures Expecting(r, list, reply)
  {}

  lemma {:induction false} WokenMore(s: State, woken: seq<nat>, d: nat, debt: set<nat>, time: nat)
    requires Expecting(s, woken, Granted(time)) && NoTwice(woken) && debt !! SetOf(woken) && d !in debt + SetOf(woken)
    requires d < |s.clients| && s.clients[d].phase.Blocked? && CallOf(s, d).CondWait?
    ensures Expecting(s, woken + [d], Granted(time)) && NoTwice(woken + [d]) && debt !! SetOf(woken + [d])
    ensures debt + SetOf(woken) + {d} == debt + SetOf(woken + [d])
  {}

  lemma {:induction false} WakeAllKeepsInv(s: State, k: nat, debt: set<nat>, time: nat)
    requires Inv(s, debt) && k < |s.conds|
    ensures Wakes(s, k, debt, time, WakeAll(s, k))
  {
    assert debt + SetOf([]) == debt;
    forall w | Wakes(s, k, debt, time, w) ensures Wakes(s, k, debt, time, WakeNext(w, k)) {
      WakeNextKeeps(s, k, debt, time, w);
    }
    RepeatKeeps(w => WakeNext(w, k), |s.conds[k].waiting|, Waking(s, []), w => Wakes(s, k, debt, time, w));
  }

  lemma {:induction false} DoBroadcastKeepsInv(s: State, c: nat, k: nat, time: nat)
    requires Inv(s, {c}) && c < |s.clients| && s.clients[c].phase == Blocked(CondBroadcast(k)) && k < |s.conds|
    ensures Inv(DoBroadcast(s, c, k, time), {})
  {
    WakeAllKeepsInv(s, k, {c}, time);
    var w := WakeAll(s, k);
    var told := SendAllKeepsInv(w.s, w.woken, Granted(time), {c});
    assert {} + SetOf([c]) == {c};
    var _ := SendAllKeepsInv(told, [c], Plain(COND_BROADCAST_RESPONSE), {});
  }

  // ---------------------------------------------------------------- barriers

  lemma {:induction false} QueueIsOk(s: State, p: Place, debt: set<nat>)
    requires Inv(s, debt) && Exists(s, p)
    ensures QueueOk(s, p) && NoTwice(Queue(s, p)) && debt !! SetOf(Queue(s, p))
    ensures forall i :: 0 <= i < |Queue(s, p)| ==>
      s.clients[Queue(s, p)[i]].phase.Blocked? && Suits(s.clients[Queue(s, p)[i]].phase.call, p)
  {
    var q := Queue(s, p);
    assert PlaceOk(s.clients, p, QueuesOf(s)(p));
    forall i | 0 <= i < |q|
      ensures s.clients[q[i]].phase.Blocked? && Suits(s.clients[q[i]].phase.call, p) && q[i] !in debt
    {
      assert CoreOk(s.clients, QueuesOf(s), q[i], debt);
    }
  }

  lemma {:induction false} ReleaseKeepsInv(s: State, p: Place, debt: set<nat>, all: set<nat>) returns (r: State)
    requires Inv(s, debt) && Exists(s, p) && all == debt + SetOf(Queue(s, p))
    ensures QueueOk(s, p) && r == Release(s, p) && SamePhases(s, r) && Inv(r, all)
    decreases |Queue(s, p)|
  {
    QueueIsOk(s, p, debt);
    var q := Queue(s, p);
    if q == [] {
      assert all == debt;
      r := s;
    } else {
      var u := Unpark(s, p);
      UnparkKeepsInv(s, p, debt);
      FirstOut(q);
      UnparkExists(s, p);
      r := ReleaseKeepsInv(u, p, debt + {q[0]}, all);
    }
  }

  lemma {:induction false} UnparkExists(s: State, p: Place)
    requires Exists(s, p) && Queue(s, p) != [] && Queue(s, p)[0] < |s.clients|
    ensures Exists(Unpark(s, p), p) && SamePhases(s, Unpark(s, p))
  {}

  lemma {:induction false} ArriveKeepsInv(s: State, b: nat, c: nat, time: nat)
    requires Inv(s, {c}) && c < |s.clients| && s.clients[c].phase == Blocked(BarrierWait(b)) && b < |s.barriers|
    ensures Inv(Arrive(s, b, c, time), {}) && SamePhases(s, Arrive(s, b, c, time))
    ensures forall p :: Queue(Arrive(s, b, c, time), p) == if p == InBarrier(b) then s.barriers[b].waiting + [c] else Queue(s, p)
  {
    ParkKeepsInv(s, c, InBarrier(b), {c});
    assert {c} - {c} == {};
    var (u, r) := (Park(s, c, InBarrier(b)), Arrive(s, b, c, time));
    forall p ensures Queue(r, p) == Queue(u, p) {}
    FrameInv(u, r, {});
  }

  lemma {:induction false} OpenKeepsInv(s: State, b: nat)
    requires Inv(s, {}) && b < |s.barriers|
    ensures QueueOk(s, InBarrier(b)) && Inv(Open(s, b), {}) && SamePhases(s, Open(s, b))
  {
    var (q, reply) := (Queue(s, InBarrier(b)), Timed(BARRIER_WAIT_RESPONSE, s.barriers[b].maxTime));
    QueueIsOk(s, InBarrier(b), {});
    var u := ReleaseKeepsInv(s, InBarrier(b), {}, {} + SetOf(q));
    assert Expecting(s, q, reply);
    ExpectingSame(s, u, q, reply);
    var _ := SendAllKeepsInv(u, q, reply, {});
  }

  lemma {:induction false} DoBarrierWaitKeepsInv(s: State, c: nat, b: nat, time: nat)
    requires Inv(s, {c}) && c < |s.clients| && s.clients[c].phase == Blocked(BarrierWait(b)) && b < |s.barriers|
    ensures Queued(s) && Inv(DoBarrierWait(s, c, b, time), {})
  {
    InvQueued(s, {c});
    ArriveKeepsInv(s, b, c, time);
    OpenKeepsInv(Arrive(s, b, c, time), b);
  }

  // ---------------------------------------------------------------- futexes

  lemma {:induction false} NotifyKeepsInv(s: State, addr: int, debt: set<nat>)
    requires Inv(s, debt)
    ensures Inv(Notify(s, addr), debt) && SamePhases(s, Notify(s, addr))
  {
    var (p, q) := (InFutex(addr), Queue(s, InFutex(addr)));
    if q != [] {
      var c := q[0];
      UnparkKeepsInv(s, p, debt);
      UnparkExists(s, p);
      SendKeepsInv(Unpark(s, p), c, FutexResult(0), debt + {c});
      assert debt + {c} - {c} == debt;
    }
  }

  lemma {:induction false} MoveKeepsInv(s: State, addr: int, addr2: int, debt: set<nat>)
    requires Inv(s, debt)
    ensures Inv(Move(s, addr, addr2), debt) && SamePhases(s, Move(s, addr, addr2))
  {
    var (p, q) := (InFutex(addr), Queue(s, InFutex(addr)));
    if q != [] {
      var c := q[0];
      UnparkKeepsInv(s, p, debt);
      UnparkExists(s, p);
      ParkKeepsInv(Unpark(s, p), c, InFutex(addr2), debt + {c});
      assert debt + {c} - {c} == debt;
    }
  }

  // The invariant, and the calls that `s0` has.
  ghost predicate Keeps(s0: State, debt: set<nat>, x: State) {
    Inv(x, debt) && SamePhases(s0, x)
  }

  lemma {:induction false} WakeFutexKeepsInv(s: State, addr: int, val: int, debt: set<nat>)
    requires Inv(s, debt)
    ensures Keeps(s, debt, WakeFutex(s, addr, val))
  {
    forall x | Keeps(s, debt, x) ensures Keeps(s, debt, Notify(x, addr)) {
      NotifyKeepsInv(x, addr, debt);
    }
    RepeatKeeps(x => Notify(x, addr), NonNegative(val), s, x => Keeps(s, debt, x));
  }

  lemma {:induction false} RequeueKeepsInv(s: State, addr: int, addr2: int, val: int, debt: set<nat>)
    requires Inv(s, debt)
    ensures Keeps(s, debt, Requeue(s, addr, addr2, val))
  {
    forall x | Keeps(s, debt, x) ensures Keeps(s, debt, Move(x, addr, addr2)) {
      MoveKeepsInv(x, addr, addr2, debt);
    }
    RepeatKeeps(x => Move(x, addr, addr2), NonNegative(val), s, x => Keeps(s, debt, x));
  }

  predicate IsFutex(call: Call) {
    call.FutexWait? || call.FutexWake? || call.FutexWakeOp? || call.FutexCmpRequeue?
  }

  // Out of a loop, the caller gets its result.
  lemma {:induction false} FutexAnswer(s: State, x: State, c: nat, value: int)
    requires Keeps(s, {c}, x) && c < |s.clients| && s.clients[c].phase.Blocked? && IsFutex(CallOf(s, c))
    ensures Inv(Answer(x, c, value), {})
  {
    var _ := AnswerKeepsInv(x, c, FutexResult(value));
  }

  lemma {:induction false} DoFutexKeepsInv(s: State, c: nat, call: Call)
    requires Inv(s, {c}) && c < |s.clients| && s.clients[c].phase == Blocked(call) && IsFutex(call)
    ensures Inv(DoFutex(s, c, call), {})
  {
    assert Keeps(s, {c}, s);
    match call
    case FutexWait(a, equal) => {
      ParkKeepsInv(s, c, InFutex(a), {c});
      assert {c} - {c} == {};
      FutexAnswer(s, s, c, -EWOULDBLOCK);
    }
    case FutexWake(a, val) => {
      WakeFutexKeepsInv(s, a, val, {c});
      FutexAnswer(s, WakeFutex(s, a, val), c, WakeCount(s, a, val));
    }
    case FutexWakeOp(a, val, a2, val2, condition) => {
      var (r, n) := (WakeFutex(s, a, val), WakeCount(s, a, val));
      WakeFutexKeepsInv(s, a, val, {c});
      if condition {
        WakeFutexKeepsInv(r, a2, val2, {c});
        FutexAnswer(r, WakeFutex(r, a2, val2), c, n + WakeCount(r, a2, val2));
      } else {
        FutexAnswer(s, r, c, n);
      }
    }
    case FutexCmpRequeue(a, val, a2, val2, equal) => {
      CmpRequeueKeepsInv(s, c, a, val, a2, val2, equal);
    }
  }

  lemma {:induction false} CmpRequeueKeepsInv(s: State, c: nat, a: int, val: int, a2: int, val2: int, equal: bool)
    requires Inv(s, {c}) && c < |s.clients| && s.clients[c].phase == Blocked(FutexCmpRequeue(a, val, a2, val2, equal))
    ensures Inv(DoFutex(s, c, FutexCmpRequeue(a, val, a2, val2, equal)), {})
  {
    assert Keeps(s, {c}, s);
    var (r, n) := (WakeFutex(s, a, val), WakeCount(s, a, val));
    if equal {
      WakeFutexKeepsInv(s, a, val, {c});
      RequeueKeepsInv(r, a, a2, val2, {c});
      FutexAnswer(r, Requeue(r, a, a2, val2), c, n + RequeueCount(r, a, a2, val2));
    } else {
      FutexAnswer(s, s, c, -EWOULDBLOCK);
    }
  }

  // ---------------------------------------------------------------- join and exit

  lemma {:induction false} WakeJoinerKeepsInv(s: State, t: nat, time: nat) returns (r: State)
    requires Inv(s, {}) && t < |s.joiners|
    ensures Queued(s) && r == WakeJoiner(s, t, time) && Inv(r, {})
  {
    InvQueued(s, {});
    r := s;
    if s.joiners[t] != [] {
      var d := s.joiners[t][0];
      UnparkKeepsInv(s, InJoin(t), {});
      assert {} + {d} == {d};
      r := AnswerKeepsInv(Unpark(s, InJoin(t)), d, JoinReply(time));
    }
  }

  lemma {:induction false} DoJoinKeepsInv(s: State, c: nat, t: nat, time: nat) returns (r: State)
    requires Inv(s, {c}) && c < |s.clients| && s.clients[c].phase == Blocked(Join(t)) && t < |s.joiners| && t < |s.clients|
    ensures Queued(s) && r == DoJoin(s, c, t, time) && Inv(r, {})
  {
    InvQueued(s, {c});
    ParkKeepsInv(s, c, InJoin(t), {c});
    assert {c} - {c} == {};
    r := Park(s, c, InJoin(t));
    if s.clients[t].status.Idle? {
      r := WakeJoinerKeepsInv(r, t, time);
    }
  }

  lemma {:induction false} DoExitKeepsInv(s: State, c: nat, time: nat) returns (r: State)
    requires Inv(s, {c}) && c < |s.clients| && s.clients[c].phase == Blocked(Exit) && c < |s.joiners|
    ensures Queued(s) && r == DoExit(s, c, time) && Inv(r, {})
  {
    InvQueued(s, {c});
    var gone := s.(clients := s.clients[c := s.clients[c].(status := Idle, phase := Gone)]);
    assert CoreOk(s.clients, QueuesOf(s), c, {c});
    ClientKeepsInv(s, c, gone.clients[c], {c}, {});
    r := WakeJoinerKeepsInv(gone, c, time);
  }

  // A core that is in no queue changes by itself.
  lemma {:induction false} ClientKeepsInv(s: State, c: nat, k: Client, debt: set<nat>, debt': set<nat>)
    requires Inv(s, debt) && c < |s.clients| && s.clients[c].place.None? && k.place.None?
    requires ClientOk(k, true, c in debt') && debt' - {c} == debt - {c}
    ensures Inv(s.(clients := s.clients[c := k]), debt')
  {
    var r := s.(clients := s.clients[c := k]);
    var q := QueuesOf(s);
    SameQueues(s, r);
    forall p ensures PlaceOk(r.clients, p, q(p)) {
      assert PlaceOk(s.clients, p, q(p));
    }
    forall d | 0 <= d < |r.clients| ensures CoreOk(r.clients, q, d, debt') {
      assert CoreOk(s.clients, q, d, debt);
      assert d != c ==> (d in debt' <==> d in debt' - {c}) && (d in debt <==> d in debt - {c});
    }
    forall d | d in debt' ensures d < |r.clients| {
      assert d != c ==> d in debt' - {c};
    }
    FrameKeepsInv(r, q, debt');
  }
}
