/**
 What a request leaves alone in the clients that did not send it: the call they
 are in, their clock, and the replies on their way to them.  A reply waits until
 its client receives it.
 */
module SyncReplies {
  import opened SyncModel
  import opened SyncHandlers
  import opened SyncProofs
  import opened SyncRuns
  import opened SyncTheorems

  // Core d is in the same call at the same time, and has lost no reply.
  predicate Kept(s: State, r: State, d: nat) {
    && d < |s.clients| == |r.clients| && r.clients[d].phase == s.clients[d].phase
    && r.clients[d].clock == s.clients[d].clock && s.clients[d].inbox <= r.clients[d].inbox
  }

  lemma {:induction false} PassOnKept(s: State, m: nat, time: nat, d: nat)
    requires m < |s.mutexes| && (NextOwner(s, m).Some? ==> NextOwner(s, m).value < |s.clients|) && d < |s.clients|
    ensures Kept(s, PassOn(s, m, time), d)
  {}

  lemma {:induction false} LockKept(s: State, c: nat, m: nat, time: nat, d: nat)
    requires m < |s.mutexes| && c < |s.clients| && d < |s.clients|
    ensures Kept(s, DoLock(s, c, m, time), d)
  {}

  lemma {:induction false} UnlockKept(s: State, c: nat, m: nat, time: nat, d: nat)
    requires m < |s.mutexes| && c < |s.clients| && d < |s.clients| && Queued(s)
    ensures Kept(s, DoUnlock(s, c, m, time), d)
  {
    assert AllBelow(Queue(s, InMutex(m)), |s.clients|);
    PassOnKept(s, m, time, d);
  }

  lemma {:induction false} CondWaitKept(s: State, c: nat, k: nat, m: nat, time: nat, d: nat)
    requires m < |s.mutexes| && k < |s.conds| && c < |s.clients| && d < |s.clients| && Queued(s)
    ensures Kept(s, DoCondWait(s, c, k, m, time), d)
  {
    assert AllBelow(Queue(s, InMutex(m)), |s.clients|);
    PassOnKept(Await(s, c, k, m), m, time, d);
  }

  lemma {:induction false} WakeOneKept(s: State, k: nat, d: nat)
    requires CanWake(s, k) && d < |s.clients|
    ensures Kept(s, WakeOne(s, k), d)
  {}

  lemma {:induction false} SignalKept(s: State, c: nat, k: nat, time: nat, d: nat)
    requires k < |s.conds| && c < |s.clients| && d < |s.clients| && Shape(s)
    ensures Kept(s, DoSignal(s, c, k, time), d)
  {
    assert CondOk(s.conds[k], |s.clients|, |s.mutexes|);
    if s.conds[k].waiting != [] {
      WakeOneKept(s, k, d);
    }
  }

  lemma {:induction false} SendAllKept(s: State, list: seq<nat>, reply: Reply, d: nat)
    requires d < |s.clients|
    ensures Kept(s, SendAll(s, list, reply), d)
    decreases |list|
  {
    if list != [] {
      SendAllKept(if list[0] < |s.clients| then Send(s, list[0], reply) else s, list[1..], reply, d);
    }
  }

  lemma {:induction false} WakeNextKept(s: State, w: Waking, k: nat, d: nat)
    requires Kept(s, w.s, d)
    ensures Kept(s, WakeNext(w, k).s, d)
  {}

  lemma {:induction false} BroadcastKept(s: State, c: nat, k: nat, time: nat, d: nat)
    requires k < |s.conds| && d < |s.clients|
    ensures Kept(s, DoBroadcast(s, c, k, time), d)
  {
    forall w: Waking | Kept(s, w.s, d) ensures Kept(s, WakeNext(w, k).s, d) {
      WakeNextKept(s, w, k, d);
    }
    RepeatKeeps(w => WakeNext(w, k), |s.conds[k].waiting|, Waking(s, []), (w: Waking) => Kept(s, w.s, d));
    var w := WakeAll(s, k);
    SendAllKept(w.s, w.woken, Granted(time), d);
    SendAllKept(SendAll(w.s, w.woken, Granted(time)), [c], Plain(COND_BROADCAST_RESPONSE), d);
  }

  lemma {:induction false} ReleaseKept(s: State, p: Place, d: nat)
    requires QueueOk(s, p) && d < |s.clients|
    ensures Kept(s, Release(s, p), d)
    decreases |Queue(s, p)|
  {
    if Queue(s, p) != [] {
      UnparkExists(s, p);
      ReleaseKept(Unpark(s, p), p, d);
    }
  }

  lemma {:induction false} BarrierWaitKept(s: State, c: nat, b: nat, time: nat, d: nat)
    requires b < |s.barriers| && c < |s.clients| && d < |s.clients| && Queued(s)
    ensures Kept(s, DoBarrierWait(s, c, b, time), d)
  {
    var r := Arrive(s, b, c, time);
    assert AllBelow(Queue(s, InBarrier(b)), |s.clients|);
    if |r.barriers[b].waiting| >= r.barriers[b].count {
      ReleaseKept(r, InBarrier(b), d);
      SendAllKept(Release(r, InBarrier(b)), r.barriers[b].waiting, Timed(BARRIER_WAIT_RESPONSE, r.barriers[b].maxTime), d);
    }
  }

  lemma {:induction false} WakeFutexKept(s: State, addr: int, val: int, d: nat)
    requires d < |s.clients|
    ensures Kept(s, WakeFutex(s, addr, val), d)
  {
    RepeatKeeps(x => Notify(x, addr), NonNegative(val), s, (x: State) => Kept(s, x, d));
  }

  lemma {:induction false} RequeueKept(s: State, addr: int, addr2: int, val: int, d: nat)
    requires d < |s.clients|
    ensures Kept(s, Requeue(s, addr, addr2, val), d)
  {
    RepeatKeeps(x => Move(x, addr, addr2), NonNegative(val), s, (x: State) => Kept(s, x, d));
  }

  lemma {:induction false} FutexKept(s: State, c: nat, call: Call, d: nat)
    requires IsFutex(call) && c < |s.clients| && d < |s.clients|
    ensures Kept(s, DoFutex(s, c, call), d)
  {
    match call {
      case FutexWait(_, _) =>
      case FutexWake(a, val) => WakeFutexKept(s, a, val, d);
      case FutexWakeOp(a, val, a2, val2, _) => {
        WakeFutexKept(s, a, val, d);
        WakeFutexKept(WakeFutex(s, a, val), a2, val2, d);
      }
      case FutexCmpRequeue(a, val, a2, val2, _) => {
        WakeFutexKept(s, a, val, d);
        RequeueKept(WakeFutex(s, a, val), a, a2, val2, d);
      }
    }
  }

  lemma {:induction false} WakeJoinerKept(s: State, t: nat, time: nat, d: nat)
    requires t < |s.joiners| && Queued(s) && d < |s.clients|
    ensures Kept(s, WakeJoiner(s, t, time), d)
  {
    assert AllBelow(Queue(s, InJoin(t)), |s.clients|);
  }

  lemma {:induction false} JoinKept(s: State, c: nat, t: nat, time: nat, d: nat)
    requires c < |s.clients| && t < |s.joiners| && Queued(s) && t < |s.clients| && d < |s.clients|
    ensures Kept(s, DoJoin(s, c, t, time), d)
  {
    var r := Park(s, c, InJoin(t));
    forall p ensures AllBelow(Queue(r, p), |r.clients|) {
      assert AllBelow(Queue(s, p), |s.clients|);
    }
    if s.clients[t].status.Idle? {
      WakeJoinerKept(r, t, time, d);
    }
  }

  lemma {:induction false} ExitKept(s: State, c: nat, time: nat, d: nat)
    requires c < |s.clients| && c < |s.joiners| && Queued(s) && d < |s.clients| && d != c
    ensures Kept(s, DoExit(s, c, time), d)
  {
    var r := s.(clients := s.clients[c := s.clients[c].(status := Idle, phase := Gone)]);
    SameQueues(s, r);
    WakeJoinerKept(r, c, time, d);
  }

  // Whatever core c asks for, the other cores keep call, clock and replies.
  lemma {:induction false} HandleKept(s: State, c: nat, d: nat)
    requires Ready(s) && c < |s.clients| && s.clients[c].phase.Sent? && Allowed(s, c, s.clients[c].phase.call)
    requires d < |s.clients| && d != c
    ensures Kept(s, Handle(s, c), d)
  {
    var (r, t, call) := (Accept(s, c), s.clients[c].clock, s.clients[c].phase.call);
    SameQueues(s, r);
    match call
    case MutexLock(m) => LockKept(r, c, m, t, d);
    case MutexUnlock(m) => UnlockKept(r, c, m, t, d);
    case CondWait(k, m) => CondWaitKept(r, c, k, m, t, d);
    case CondSignal(k) => SignalKept(r, c, k, t, d);
    case CondBroadcast(k) => BroadcastKept(r, c, k, t, d);
    case BarrierWait(b) => BarrierWaitKept(r, c, b, t, d);
    case Join(j) => JoinKept(r, c, j, t, d);
    case Exit => ExitKept(r, c, t, d);
    case FutexWait(_, _) => FutexKept(r, c, call, d);
    case FutexWake(_, _) => FutexKept(r, c, call, d);
    case FutexWakeOp(_, _, _, _, _) => FutexKept(r, c, call, d);
    case FutexCmpRequeue(_, _, _, _, _) => FutexKept(r, c, call, d);
    case _ => {}
  }

  // ---------------------------------------------------------------- over runs

  // A reply on its way stays the only one, and the clock of its client stands still.
  lemma {:induction false} ReplyWaits(s: State, step: Step, d: nat)
    requires Global(s) && Enabled(s, step) && d < |s.clients| && s.clients[d].phase.Blocked? && s.clients[d].inbox != []
    requires step != Receive(d)
    ensures var r := Do(s, step);
      && |r.clients| == |s.clients| && r.clients[d].phase == s.clients[d].phase
      && r.clients[d].clock == s.clients[d].clock && r.clients[d].inbox == s.clients[d].inbox
  {
    if step.core != d && step.Serve? {
      HandleKept(s, step.core, d);
      StepKeepsGlobal(s, step);
      var r := Do(s, step);
      assert CoreOk(s.clients, QueuesOf(s), d, {}) && CoreOk(r.clients, QueuesOf(r), d, {});
    }
  }

  // From its arrival to its receipt.
  lemma {:induction false} ReplyArrives(states: seq<State>, steps: seq<Step>, n: nat, i: nat, j: nat, d: nat)
    requires Run(states, steps) && Init(states[0], n) && i <= j < |states| && d < |states[i].clients|
    requires states[i].clients[d].phase.Blocked? && states[i].clients[d].inbox != []
    requires forall k :: i <= k < j ==> steps[k] != Receive(d)
    ensures d < |states[j].clients| && states[j].clients[d].phase == states[i].clients[d].phase
    ensures states[j].clients[d].clock == states[i].clients[d].clock && states[j].clients[d].inbox == states[i].clients[d].inbox
    decreases j
  {
    if i < j {
      ReplyArrives(states, steps, n, i, j - 1, d);
      RunKeepsGlobal(states, steps, n, j - 1);
      assert Taken(states, steps, j - 1);
      ReplyWaits(states[j - 1], steps[j - 1], d);
    }
  }
}
