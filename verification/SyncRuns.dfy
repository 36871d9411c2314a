/**
 Runs of the MCP and its clients: threads compute, send a request and block; the
 MCP takes requests up one at a time, in any order; replies are received.  What
 holds in every state of every run.
 */
module SyncRuns {
  import opened SyncModel
  import opened SyncHandlers
  import opened SyncProofs
  import opened SyncOwners

  // The MCP has taken the request up.
  function Accept(s: State, c: nat): State
    requires c < |s.clients| && s.clients[c].phase.Sent?
  {
    s.(clients := s.clients[c := s.clients[c].(phase := Blocked(s.clients[c].phase.call))])
  }

  ghost predicate Ready(s: State) {
    Shape(s) && Queued(s)
  }

  // One request handled by the MCP.
  ghost function Handle(s: State, c: nat): State
    requires Ready(s) && c < |s.clients| && s.clients[c].phase.Sent? && Allowed(s, c, s.clients[c].phase.call)
  {
    var (r, t) := (Accept(s, c), s.clients[c].clock);
    SameQueues(s, r);
    match s.clients[c].phase.call
    case MutexLock(m) => DoLock(r, c, m, t)
    case MutexUnlock(m) => DoUnlock(r, c, m, t)
    case CondWait(k, m) => DoCondWait(r, c, k, m, t)
    case CondSignal(k) => DoSignal(r, c, k, t)
    case CondBroadcast(k) => DoBroadcast(r, c, k, t)
    case BarrierWait(b) => DoBarrierWait(r, c, b, t)
    case Join(d) => DoJoin(r, c, d, t)
    case Exit => DoExit(r, c, t)
    case FutexWait(_, _) => DoFutex(r, c, r.clients[c].phase.call)
    case FutexWake(_, _) => DoFutex(r, c, r.clients[c].phase.call)
    case FutexWakeOp(_, _, _, _, _) => DoFutex(r, c, r.clients[c].phase.call)
    case FutexCmpRequeue(_, _, _, _, _) => DoFutex(r, c, r.clients[c].phase.call)
    case _ => DoInit(r, c, r.clients[c].phase.call)
  }

  lemma {:induction false} AcceptKeepsInv(s: State, c: nat)
    requires Inv(s, {}) && c < |s.clients| && s.clients[c].phase.Sent?
    ensures Inv(Accept(s, c), {c})
  {
    assert CoreOk(s.clients, QueuesOf(s), c, {});
    ClientKeepsInv(s, c, Accept(s, c).clients[c], {}, {c});
  }

  lemma {:induction false} DoInitKeepsInv(s: State, c: nat, call: Call)
    requires Inv(s, {c}) && c < |s.clients| && s.clients[c].phase == Blocked(call)
    requires call.MutexInit? || call.CondInit? || call.BarrierInit?
    ensures Inv(DoInit(s, c, call), {})
  {
    var (r, n) := if call.MutexInit? then (s.(mutexes := s.mutexes + [Mutex(None, [])]), |s.mutexes|)
                  else if call.CondInit? then (s.(conds := s.conds + [Cond([], [])]), |s.conds|)
                  else (s.(barriers := s.barriers + [Barrier(call.count, [], 0)]), |s.barriers|);
    FrameInv(s, r, {c});
    var _ := AnswerKeepsInv(r, c, Index(n));
  }

  // Whatever the request, a core stays stalled exactly while it waits in one
  // queue, and is owed nothing afterwards.
  lemma {:induction false} HandleKeepsInv(s: State, c: nat)
    requires Inv(s, {}) && Ready(s) && c < |s.clients| && s.clients[c].phase.Sent?
    requires Allowed(s, c, s.clients[c].phase.call)
    ensures Inv(Handle(s, c), {})
  {
    AcceptKeepsInv(s, c);
    var (r, t, call) := (Accept(s, c), s.clients[c].clock, s.clients[c].phase.call);
    SameQueues(s, r);
    match call
    case MutexLock(m) => { var _ := DoLockKeepsInv(r, c, m, t); }
    case MutexUnlock(m) => { var _ := DoUnlockKeepsInv(r, c, m, t); }
    case CondWait(k, m) => { var _ := DoCondWaitKeepsInv(r, c, k, m, t); }
    case CondSignal(k) => { var _ := DoSignalKeepsInv(r, c, k, t); }
    case CondBroadcast(k) => DoBroadcastKeepsInv(r, c, k, t);
    case BarrierWait(b) => DoBarrierWaitKeepsInv(r, c, b, t);
    case Join(d) => { var _ := DoJoinKeepsInv(r, c, d, t); }
    case Exit => { var _ := DoExitKeepsInv(r, c, t); }
    case FutexWait(_, _) => DoFutexKeepsInv(r, c, call);
    case FutexWake(_, _) => DoFutexKeepsInv(r, c, call);
    case FutexWakeOp(_, _, _, _, _) => DoFutexKeepsInv(r, c, call);
    case FutexCmpRequeue(_, _, _, _, _) => DoFutexKeepsInv(r, c, call);
    case _ => DoInitKeepsInv(r, c, call);
  }

  // ---------------------------------------------------------------- what a request leaves alone

  // Sending replies changes clients only.
  lemma {:induction false} SendAllFrame(s: State, list: seq<nat>, reply: Reply)
    ensures var r := SendAll(s, list, reply);
      r.mutexes == s.mutexes && r.conds == s.conds && r.barriers == s.barriers && r.joiners == s.joiners && SamePhases(s, r)
    decreases |list|
  {
    if list != [] {
      SendAllFrame(if list[0] < |s.clients| then Send(s, list[0], reply) else s, list[1..], reply);
    }
  }

  lemma {:induction false} WakeFutexFrame(s: State, addr: int, val: int)
    ensures WakeFutex(s, addr, val).barriers == s.barriers
  {
    RepeatKeeps(x => Notify(x, addr), NonNegative(val), s, (x: State) => x.barriers == s.barriers);
  }

  lemma {:induction false} RequeueFrame(s: State, addr: int, addr2: int, val: int)
    ensures Requeue(s, addr, addr2, val).barriers == s.barriers
  {
    RepeatKeeps(x => Move(x, addr, addr2), NonNegative(val), s, (x: State) => x.barriers == s.barriers);
  }

  predicate BroadcastFrame(s: State, k: nat, w: Waking) {
    && w.s.barriers == s.barriers && w.s.joiners == s.joiners && |w.s.mutexes| == |s.mutexes| && |w.s.conds| == |s.conds|
    && SamePhases(s, w.s) && k < |w.s.conds| && CondOk(w.s.conds[k], |s.clients|, |s.mutexes|)
    && forall j :: 0 <= j < |s.conds| && j != k ==> w.s.conds[j] == s.conds[j]
  }

  lemma {:induction false} WakeAllFrame(s: State, k: nat)
    requires k < |s.conds| && CondOk(s.conds[k], |s.clients|, |s.mutexes|)
    ensures BroadcastFrame(s, k, WakeAll(s, k))
  {
    forall w | BroadcastFrame(s, k, w) ensures BroadcastFrame(s, k, WakeNext(w, k)) {
      WakeNextFrame(s, k, w);
    }
    RepeatKeeps(w => WakeNext(w, k), |s.conds[k].waiting|, Waking(s, []), w => BroadcastFrame(s, k, w));
  }

  lemma {:induction false} WakeNextFrame(s: State, k: nat, w: Waking)
    requires BroadcastFrame(s, k, w)
    ensures BroadcastFrame(s, k, WakeNext(w, k))
  {}

  // Clocks stay, and barriers do unless the request is about them.
  predicate Steady(s: State, r: State, barriers: bool) {
    && |r.clients| == |s.clients| && |r.joiners| == |s.joiners| && (barriers ==> r.barriers == s.barriers)
    && forall d :: 0 <= d < |s.clients| ==> r.clients[d].clock == s.clients[d].clock
  }

  lemma {:induction false} FutexSteady(s: State, c: nat, call: Call)
    requires Inv(s, {c}) && c < |s.clients| && s.clients[c].phase == Blocked(call) && IsFutex(call)
    ensures Steady(s, DoFutex(s, c, call), true)
  {
    DoFutexApart(s, c, call);
    if !call.FutexWait? {
      WakeFutexFrame(s, call.addr, call.val);
      var r := WakeFutex(s, call.addr, call.val);
      if call.FutexWakeOp? {
        WakeFutexFrame(r, call.addr2, call.val2);
      } else if call.FutexCmpRequeue? {
        RequeueFrame(r, call.addr, call.addr2, call.val2);
      }
    }
  }

  lemma {:induction false} LockSteady(s: State, c: nat, m: nat, time: nat)
    requires c < |s.clients| && m < |s.mutexes|
    ensures Steady(s, DoLock(s, c, m, time), true)
  {}

  lemma {:induction false} PassOnSteady(s: State, m: nat, time: nat, debt: set<nat>)
    requires Inv(s, debt) && m < |s.mutexes|
    ensures NextOwner(s, m).Some? ==> NextOwner(s, m).value < |s.clients|
    ensures Steady(s, PassOn(s, m, time), true)
  {
    PassOnKeepsInv(s, m, time, debt);
  }

  lemma {:induction false} UnlockSteady(s: State, c: nat, m: nat, time: nat)
    requires Inv(s, {c}) && c < |s.clients| && m < |s.mutexes| && Queued(s)
    ensures Steady(s, DoUnlock(s, c, m, time), true)
  {
    PassOnSteady(s, m, time, {c});
  }

  lemma {:induction false} CondWaitSteady(s: State, c: nat, k: nat, m: nat, time: nat)
    requires Inv(s, {c}) && c < |s.clients| && s.clients[c].phase == Blocked(CondWait(k, m))
    requires k < |s.conds| && m < |s.mutexes| && Queued(s)
    ensures Steady(s, DoCondWait(s, c, k, m, time), true)
  {
    ParkKeepsInv(s, c, InCond(k), {c});
    var r := Await(s, c, k, m);
    FrameInv(Park(s, c, InCond(k)), r, {c} - {c});
    PassOnSteady(r, m, time, {c} - {c});
  }

  lemma {:induction false} SignalSteady(s: State, c: nat, k: nat, time: nat)
    requires c < |s.clients| && k < |s.conds| && Shape(s)
    ensures Steady(s, DoSignal(s, c, k, time), true)
  {
    assert CondOk(s.conds[k], |s.clients|, |s.mutexes|);
    if s.conds[k].waiting != [] {
      assert Steady(s, WakeOne(s, k), true);
    }
  }

  lemma {:induction false} BroadcastSteady(s: State, c: nat, k: nat, time: nat)
    requires c < |s.clients| && k < |s.conds| && Shape(s)
    ensures Steady(s, DoBroadcast(s, c, k, time), true)
  {
    WakeAllFrame(s, k);
    var w := WakeAll(s, k);
    SendAllFrame(w.s, w.woken, Granted(time));
    SendAllFrame(SendAll(w.s, w.woken, Granted(time)), [c], Plain(COND_BROADCAST_RESPONSE));
  }

  lemma {:induction false} JoinSteady(s: State, c: nat, t: nat, time: nat)
    requires c < |s.clients| && t < |s.joiners| && t < |s.clients| && Queued(s)
    ensures Steady(s, DoJoin(s, c, t, time), true)
  {
    assert AllBelow(Queue(s, InJoin(t)), |s.clients|);
  }

  lemma {:induction false} ExitSteady(s: State, c: nat, time: nat)
    requires c < |s.clients| && c < |s.joiners| && Queued(s)
    ensures Steady(s, DoExit(s, c, time), true)
  {
    assert AllBelow(Queue(s, InJoin(c)), |s.clients|);
  }

  lemma {:induction false} HandleSteady(s: State, c: nat)
    requires Inv(s, {}) && Ready(s) && c < |s.clients| && s.clients[c].phase.Sent?
    requires Allowed(s, c, s.clients[c].phase.call)
    ensures var call := s.clients[c].phase.call;
      Steady(s, Handle(s, c), !call.BarrierInit? && !call.BarrierWait?)
  {
    AcceptKeepsInv(s, c);
    var (r, t, call) := (Accept(s, c), s.clients[c].clock, s.clients[c].phase.call);
    SameQueues(s, r);
    match call
    case MutexLock(m) => LockSteady(r, c, m, t);
    case MutexUnlock(m) => UnlockSteady(r, c, m, t);
    case CondWait(k, m) => CondWaitSteady(r, c, k, m, t);
    case CondSignal(k) => SignalSteady(r, c, k, t);
    case CondBroadcast(k) => BroadcastSteady(r, c, k, t);
    case BarrierWait(b) => DoBarrierWaitApart(r, c, b, t);
    case Join(d) => JoinSteady(r, c, d, t);
    case Exit => ExitSteady(r, c, t);
    case FutexWait(_, _) => FutexSteady(r, c, call);
    case FutexWake(_, _) => FutexSteady(r, c, call);
    case FutexWakeOp(_, _, _, _, _) => FutexSteady(r, c, call);
    case FutexCmpRequeue(_, _, _, _, _) => FutexSteady(r, c, call);
    case _ => {}
  }

  // ---------------------------------------------------------------- condition variables stay in shape

  lemma {:induction false} SameShape(s: State, r: State)
    requires Shape(s) && r.conds == s.conds && |r.mutexes| == |s.mutexes| && |r.clients| == |s.clients| && |r.joiners| == |s.joiners|
    ensures Shape(r)
  {}

  lemma {:induction false} PassOnShape(s: State, m: nat, time: nat)
    requires Shape(s) && m < |s.mutexes| && (NextOwner(s, m).Some? ==> NextOwner(s, m).value < |s.clients|)
    ensures Shape(PassOn(s, m, time))
  {
    SameShape(s, PassOn(s, m, time));
  }

  lemma {:induction false} CondWaitShape(s: State, c: nat, k: nat, m: nat, time: nat)
    requires Shape(s) && c < |s.clients| && k < |s.conds| && m < |s.mutexes| && Queued(s)
    ensures Shape(DoCondWait(s, c, k, m, time))
  {
    var r := Await(s, c, k, m);
    forall j | 0 <= j < |r.conds| ensures CondOk(r.conds[j], |r.clients|, |r.mutexes|) {
      assert CondOk(s.conds[j], |s.clients|, |s.mutexes|);
    }
    assert AllBelow(Queue(s, InMutex(m)), |s.clients|);
    PassOnShape(r, m, time);
  }

  lemma {:induction false} SignalShape(s: State, c: nat, k: nat, time: nat)
    requires Shape(s) && c < |s.clients| && k < |s.conds|
    ensures Shape(DoSignal(s, c, k, time))
  {
    assert CondOk(s.conds[k], |s.clients|, |s.mutexes|);
    var r := DoSignal(s, c, k, time);
    forall j | 0 <= j < |r.conds| ensures CondOk(r.conds[j], |r.clients|, |r.mutexes|) {
      assert CondOk(s.conds[j], |s.clients|, |s.mutexes|);
    }
  }

  lemma {:induction false} BroadcastShape(s: State, c: nat, k: nat, time: nat)
    requires Shape(s) && c < |s.clients| && k < |s.conds|
    ensures Shape(DoBroadcast(s, c, k, time))
  {
    WakeAllFrame(s, k);
    var w := WakeAll(s, k);
    assert Shape(w.s);
    SendAllFrame(w.s, w.woken, Granted(time));
    var told := SendAll(w.s, w.woken, Granted(time));
    SameShape(w.s, told);
    SendAllFrame(told, [c], Plain(COND_BROADCAST_RESPONSE));
    SameShape(told, DoBroadcast(s, c, k, time));
  }

  lemma {:induction false} HandleKeepsShape(s: State, c: nat)
    requires Inv(s, {}) && Ready(s) && c < |s.clients| && s.clients[c].phase.Sent?
    requires Allowed(s, c, s.clients[c].phase.call)
    ensures Shape(Handle(s, c))
  {
    AcceptKeepsInv(s, c);
    var (r, t, call) := (Accept(s, c), s.clients[c].clock, s.clients[c].phase.call);
    SameQueues(s, r);
    match call
    case MutexLock(m) => SameShape(r, DoLock(r, c, m, t));
    case MutexUnlock(m) => {
      PassOnKeepsInv(r, m, t, {c});
      SameShape(r, DoUnlock(r, c, m, t));
    }
    case CondWait(k, m) => CondWaitShape(r, c, k, m, t);
    case CondSignal(k) => SignalShape(r, c, k, t);
    case CondBroadcast(k) => BroadcastShape(r, c, k, t);
    case BarrierWait(b) => {
      DoBarrierWaitApart(r, c, b, t);
      SameShape(r, Handle(s, c));
    }
    case Join(d) => {
      DoJoinApart(r, c, d, t);
      SameShape(r, Handle(s, c));
    }
    case Exit => {
      ExitSteady(r, c, t);
      SameShape(r, DoExit(r, c, t));
    }
    case FutexWait(_, _) => FutexShape(r, c, call);
    case FutexWake(_, _) => FutexShape(r, c, call);
    case FutexWakeOp(_, _, _, _, _) => FutexShape(r, c, call);
    case FutexCmpRequeue(_, _, _, _, _) => FutexShape(r, c, call);
    case _ => InitShape(r, c, call);
  }

  lemma {:induction false} FutexShape(s: State, c: nat, call: Call)
    requires Shape(s) && Inv(s, {c}) && c < |s.clients| && s.clients[c].phase == Blocked(call) && IsFutex(call)
    ensures Shape(DoFutex(s, c, call))
  {
    DoFutexApart(s, c, call);
    SameShape(s, DoFutex(s, c, call));
  }

  lemma {:induction false} InitShape(s: State, c: nat, call: Call)
    requires Shape(s) && c < |s.clients| && (call.MutexInit? || call.CondInit? || call.BarrierInit?)
    ensures Shape(DoInit(s, c, call))
  {
    var r := DoInit(s, c, call);
    forall j | 0 <= j < |r.conds| ensures CondOk(r.conds[j], |r.clients|, |r.mutexes|) {
      assert j < |s.conds| ==> CondOk(s.conds[j], |s.clients|, |s.mutexes|);
    }
  }

  // ---------------------------------------------------------------- owners

  // A signal finds only waiters with one and the same mutex.
  predicate Disciplined(s: State, call: Call) {
    call.CondSignal? && call.cond < |s.conds| ==> OneMutex(s.conds[call.cond].muxes)
  }

  lemma {:induction false} AcceptOwn(s: State, c: nat)
    requires OwnInv(s) && Inv(s, {}) && c < |s.clients| && s.clients[c].phase.Sent?
    ensures OwnInv(Accept(s, c))
  {
    var r := Accept(s, c);
    assert CoreOk(s.clients, QueuesOf(s), c, {});
    ClientOwn(s, c, r.clients[c]);
  }

  // One client changes that waits for no mutex.
  lemma {:induction false} ClientOwn(s: State, c: nat, k: Client)
    requires OwnInv(s) && c < |s.clients| && GaveUp(k) && !Granting(s.clients[c])
    requires forall m: nat :: Holds(k, m) ==> Holds(s.clients[c], m)
    ensures OwnInv(s.(clients := s.clients[c := k]))
  {
    var r := s.(clients := s.clients[c := k]);
    forall d | 0 <= d < |r.clients| ensures Owns(r, d) && GaveUp(r.clients[d]) {
      assert Owns(s, d) && GaveUp(s.clients[d]);
    }
    forall m | 0 <= m < |r.mutexes| ensures AllWant(r, r.mutexes[m].waiting, m) {
      assert AllWant(s, s.mutexes[m].waiting, m);
    }
    forall j | 0 <= j < |r.conds| ensures Paired(r, r.conds[j]) {
      assert Paired(s, s.conds[j]);
    }
  }

  lemma {:induction false} DoLockOwn(s: State, c: nat, m: nat, time: nat)
    requires OwnInv(s) && c < |s.clients| && s.clients[c].phase == Blocked(MutexLock(m)) && m < |s.mutexes|
    ensures OwnInv(DoLock(s, c, m, time))
  {
    LockOwn(s, m, c);
    if Free(s, m) {
      SendOwn(LockMutex(s, m, c), c, Granted(time));
    }
  }

  lemma {:induction false} DoUnlockOwn(s: State, c: nat, m: nat, time: nat)
    requires OwnInv(s) && Inv(s, {c}) && Queued(s) && c < |s.clients| && s.clients[c].phase == Blocked(MutexUnlock(m))
    requires m < |s.mutexes| && s.mutexes[m].owner == Some(c)
    ensures OwnInv(DoUnlock(s, c, m, time))
  {
    assert GaveUp(s.clients[c]);
    PassOnOwn(s, m, c, time, {c});
    PassOnKeepsInv(s, m, time, {c});
    SendOwn(PassOn(s, m, time), c, Plain(MUTEX_UNLOCK_RESPONSE));
  }

  lemma {:induction false} DoCondWaitOwn(s: State, c: nat, k: nat, m: nat, time: nat)
    requires OwnInv(s) && Inv(s, {c}) && Queued(s) && c < |s.clients| && s.clients[c].phase == Blocked(CondWait(k, m))
    requires k < |s.conds| && m < |s.mutexes| && s.mutexes[m].owner == Some(c)
    ensures OwnInv(DoCondWait(s, c, k, m, time))
  {
    assert GaveUp(s.clients[c]);
    AwaitOwn(s, c, k, m);
    ParkKeepsInv(s, c, InCond(k), {c});
    FrameInv(Park(s, c, InCond(k)), Await(s, c, k, m), {c} - {c});
    PassOnOwn(Await(s, c, k, m), m, c, time, {c} - {c});
  }

  lemma {:induction false} DoSignalOwn(s: State, c: nat, k: nat, time: nat)
    requires OwnInv(s) && Inv(s, {c}) && Shape(s) && c < |s.clients| && s.clients[c].phase == Blocked(CondSignal(k)) && k < |s.conds|
    requires OneMutex(s.conds[k].muxes)
    ensures OwnInv(DoSignal(s, c, k, time))
  {
    assert CondOk(s.conds[k], |s.clients|, |s.mutexes|);
    var (told, reply) := (s, Plain(COND_SIGNAL_RESPONSE));
    if s.conds[k].waiting != [] {
      var (d, m) := (s.conds[k].waiting[0], s.conds[k].muxes[0]);
      SignalOwn(s, k, {c});
      WakeKeepsInv(s, k, s.conds[k].muxes[..|s.conds[k].muxes| - 1], {c});
      told := WakeOne(s, k);
      if Free(s, m) {
        SendOwn(told, d, Granted(time));
        told := Send(told, d, Granted(time));
      }
    }
    SendOwn(told, c, reply);
  }

  lemma {:induction false} DoBroadcastOwn(s: State, c: nat, k: nat, time: nat)
    requires OwnInv(s) && Inv(s, {c}) && c < |s.clients| && s.clients[c].phase == Blocked(CondBroadcast(k)) && k < |s.conds|
    ensures OwnInv(DoBroadcast(s, c, k, time))
  {
    assert {c} + SetOf([]) == {c};
    forall w | WakesOwn(s, k, {c}, time, w) ensures WakesOwn(s, k, {c}, time, WakeNext(w, k)) {
      WakeNextOwn(s, k, {c}, time, w);
    }
    RepeatKeeps(w => WakeNext(w, k), |s.conds[k].waiting|, Waking(s, []), w => WakesOwn(s, k, {c}, time, w));
    var w := WakeAll(s, k);
    SendAllOwn(w.s, w.woken, Granted(time));
    SendAllFrame(w.s, w.woken, Granted(time));
    var (told, reply) := (SendAll(w.s, w.woken, Granted(time)), Plain(COND_BROADCAST_RESPONSE));
    SendOwn(told, c, reply);
    assert SendAll(told, [c], reply) == Send(told, c, reply);
  }

  lemma {:induction false} DoExitOwn(s: State, c: nat, time: nat)
    requires OwnInv(s) && Inv(s, {c}) && Queued(s) && c < |s.clients| && s.clients[c].phase == Blocked(Exit) && c < |s.joiners|
    ensures OwnInv(DoExit(s, c, time))
  {
    var gone := s.(clients := s.clients[c := s.clients[c].(status := Idle, phase := Gone)]);
    assert CoreOk(s.clients, QueuesOf(s), c, {c});
    ClientKeepsInv(s, c, gone.clients[c], {c}, {});
    ClientOwn(s, c, gone.clients[c]);
    WakeJoinerApart(gone, c, time);
    ApartOwn(gone, WakeJoiner(gone, c, time));
  }

  lemma {:induction false} DoInitOwn(s: State, c: nat, call: Call)
    requires OwnInv(s) && c < |s.clients| && s.clients[c].phase == Blocked(call)
    requires call.MutexInit? || call.CondInit? || call.BarrierInit?
    ensures OwnInv(DoInit(s, c, call))
  {
    var (r, n) := if call.MutexInit? then (s.(mutexes := s.mutexes + [Mutex(None, [])]), |s.mutexes|)
                  else if call.CondInit? then (s.(conds := s.conds + [Cond([], [])]), |s.conds|)
                  else (s.(barriers := s.barriers + [Barrier(call.count, [], 0)]), |s.barriers|);
    forall d | 0 <= d < |r.clients| ensures Owns(r, d) && GaveUp(r.clients[d]) {
      assert Owns(s, d) && GaveUp(s.clients[d]);
    }
    forall m | 0 <= m < |r.mutexes| ensures AllWant(r, r.mutexes[m].waiting, m) {
      assert m < |s.mutexes| ==> AllWant(s, s.mutexes[m].waiting, m);
    }
    forall j | 0 <= j < |r.conds| ensures Paired(r, r.conds[j]) {
      assert j < |s.conds| ==> Paired(s, s.conds[j]);
    }
    SendOwn(r, c, Index(n));
  }

  lemma {:induction false} HandleKeepsOwn(s: State, c: nat)
    requires OwnInv(s) && Inv(s, {}) && Ready(s) && c < |s.clients| && s.clients[c].phase.Sent?
    requires Allowed(s, c, s.clients[c].phase.call) && Disciplined(s, s.clients[c].phase.call)
    ensures OwnInv(Handle(s, c))
  {
    AcceptKeepsInv(s, c);
    AcceptOwn(s, c);
    var (r, t, call) := (Accept(s, c), s.clients[c].clock, s.clients[c].phase.call);
    SameQueues(s, r);
    match call
    case MutexLock(m) => DoLockOwn(r, c, m, t);
    case MutexUnlock(m) => DoUnlockOwn(r, c, m, t);
    case CondWait(k, m) => DoCondWaitOwn(r, c, k, m, t);
    case CondSignal(k) => DoSignalOwn(r, c, k, t);
    case CondBroadcast(k) => DoBroadcastOwn(r, c, k, t);
    case BarrierWait(b) => {
      DoBarrierWaitApart(r, c, b, t);
      ApartOwn(r, DoBarrierWait(r, c, b, t));
    }
    case Join(d) => {
      DoJoinApart(r, c, d, t);
      ApartOwn(r, DoJoin(r, c, d, t));
    }
    case Exit => DoExitOwn(r, c, t);
    case FutexWait(_, _) => FutexOwn(r, c, call);
    case FutexWake(_, _) => FutexOwn(r, c, call);
    case FutexWakeOp(_, _, _, _, _) => FutexOwn(r, c, call);
    case FutexCmpRequeue(_, _, _, _, _) => FutexOwn(r, c, call);
    case _ => DoInitOwn(r, c, call);
  }

  lemma {:induction false} FutexOwn(s: State, c: nat, call: Call)
    requires OwnInv(s) && Inv(s, {c}) && c < |s.clients| && s.clients[c].phase == Blocked(call) && IsFutex(call)
    ensures OwnInv(DoFutex(s, c, call))
  {
    DoFutexApart(s, c, call);
    ApartOwn(s, DoFutex(s, c, call));
  }
}
