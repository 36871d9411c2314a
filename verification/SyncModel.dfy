/**
 The state of the MCP's synchronisation services and of their clients: the
 mutexes, condition variables and barriers of common/system/sync_server.cc, the
 futexes of common/system/syscall_server.cc, the join waiters and thread states
 of common/system/thread_manager.cc, and for every core the call it is blocked
 in and the replies on their way to it.  One thread per core.
 */
module SyncModel {
  datatype Option<T> = None | Some(value: T)

  datatype Status = Idle | Running | Stalled

  // A queue that a core can wait in.
  datatype Place = InMutex(mux: nat) | InCond(cond: nat) | InBarrier(barrier: nat) | InFutex(addr: int) | InJoin(thread: nat)

  // Requests to the MCP.  For the futex calls, `equal` and `condition` are what
  // the comparison with simulated memory gave.
  datatype Call =
    | MutexInit | CondInit | BarrierInit(count: nat)
    | MutexLock(mux: nat) | MutexUnlock(mux: nat)
    | CondWait(cond: nat, mux: nat) | CondSignal(cond: nat) | CondBroadcast(cond: nat)
    | BarrierWait(barrier: nat)
    | FutexWait(addr: int, equal: bool)
    | FutexWake(addr: int, val: int)
    | FutexWakeOp(addr: int, val: int, addr2: int, val2: int, condition: bool)
    | FutexCmpRequeue(addr: int, val: int, addr2: int, val2: int, equal: bool)
    | Join(thread: nat)
    | Exit

  const MUTEX_LOCK_RESPONSE := 0xDEADBEEF
  const MUTEX_UNLOCK_RESPONSE := 0xBABECAFE
  const COND_WAIT_RESPONSE := MUTEX_LOCK_RESPONSE
  const COND_SIGNAL_RESPONSE := 0xBEEFCAFE
  const COND_BROADCAST_RESPONSE := 0xDEADCAFE
  const BARRIER_WAIT_RESPONSE := 0xCACACAFE
  const EWOULDBLOCK := 11

  // A code and a time, a code only, a new index, the result of a futex call, the end of a join.
  datatype Reply =
    | Timed(code: int, time: nat) | Plain(code: int) | Index(value: int) | FutexResult(value: int) | JoinReply(time: nat)

  // A thread computes, has sent a request that the MCP has not taken up, is blocked in a call, or has exited.
  datatype Phase = Computing | Sent(call: Call) | Blocked(call: Call) | Gone

  // `inbox` holds the replies on their way, `place` is where the MCP has put the
  // core, `held` the mutexes the thread has been granted.
  datatype Client = Client(status: Status, phase: Phase, inbox: seq<Reply>, clock: nat, place: Option<Place>, held: set<nat>)

  datatype Mutex = Mutex(owner: Option<nat>, waiting: seq<nat>)

  // The waiters of a condition variable, and the mutex recorded for each of them.
  datatype Cond = Cond(waiting: seq<nat>, muxes: seq<nat>)

  datatype Barrier = Barrier(count: nat, waiting: seq<nat>, maxTime: nat)

  datatype State = State(clients: seq<Client>, mutexes: seq<Mutex>, conds: seq<Cond>, barriers: seq<Barrier>,
                         futexes: map<int, seq<nat>>, joiners: seq<seq<nat>>)

  // The reply that a call checks for.
  predicate Fits(call: Call, r: Reply) {
    match call
    case MutexInit => r.Index?
    case CondInit => r.Index?
    case BarrierInit(_) => r.Index?
    case MutexLock(_) => r.Timed? && r.code == MUTEX_LOCK_RESPONSE
    case MutexUnlock(_) => r == Plain(MUTEX_UNLOCK_RESPONSE)
    case CondWait(_, _) => r.Timed? && r.code == COND_WAIT_RESPONSE
    case CondSignal(_) => r == Plain(COND_SIGNAL_RESPONSE)
    case CondBroadcast(_) => r == Plain(COND_BROADCAST_RESPONSE)
    case BarrierWait(_) => r.Timed? && r.code == BARRIER_WAIT_RESPONSE
    case FutexWait(_, _) => r.FutexResult?
    case FutexWake(_, _) => r.FutexResult?
    case FutexWakeOp(_, _, _, _, _) => r.FutexResult?
    case FutexCmpRequeue(_, _, _, _, _) => r.FutexResult?
    case Join(_) => r.JoinReply?
    case Exit => false
  }

  // The places a call can make its core wait in.
  predicate Suits(call: Call, p: Place) {
    match p
    case InMutex(m) => call.MutexLock? || call.CondWait?
    case InCond(k) => call.CondWait? && call.cond == k
    case InBarrier(b) => call == BarrierWait(b)
    case InFutex(_) => call.FutexWait?
    case InJoin(t) => call == Join(t)
  }

  // ---------------------------------------------------------------- queues

  function Queue(s: State, p: Place): seq<nat> {
    match p
    case InMutex(m) => if m < |s.mutexes| then s.mutexes[m].waiting else []
    case InCond(k) => if k < |s.conds| then s.conds[k].waiting else []
    case InBarrier(b) => if b < |s.barriers| then s.barriers[b].waiting else []
    case InFutex(a) => if a in s.futexes then s.futexes[a] else []
    case InJoin(t) => if t < |s.joiners| then s.joiners[t] else []
  }

  predicate Exists(s: State, p: Place) {
    match p
    case InMutex(m) => m < |s.mutexes|
    case InCond(k) => k < |s.conds|
    case InBarrier(b) => b < |s.barriers|
    case InFutex(_) => true
    case InJoin(t) => t < |s.joiners|
  }

  function SetQueue(s: State, p: Place, q: seq<nat>): (r: State)
    requires Exists(s, p)
    ensures r.clients == s.clients && forall p' {:trigger Queue(r, p')} :: Queue(r, p') == if p' == p then q else Queue(s, p')
  {
    match p
    case InMutex(m) => s.(mutexes := s.mutexes[m := s.mutexes[m].(waiting := q)])
    case InCond(k) => s.(conds := s.conds[k := s.conds[k].(waiting := q)])
    case InBarrier(b) => s.(barriers := s.barriers[b := s.barriers[b].(waiting := q)])
    case InFutex(a) => s.(futexes := s.futexes[a := q])
    case InJoin(t) => s.(joiners := s.joiners[t := q])
  }

  // ---------------------------------------------------------------- the invariant

  predicate NoTwice(q: seq<nat>) {
    forall i, j :: 0 <= i < j < |q| ==> q[i] != q[j]
  }

  // A queue names each core once, and only cores that are in this place.
  predicate PlaceOk(clients: seq<Client>, p: Place, q: seq<nat>) {
    NoTwice(q) && forall i :: 0 <= i < |q| ==> q[i] < |clients| && clients[q[i]].place == Some(p)
  }

  // A core is stalled exactly while it is in a place; a blocked one is in a place
  // that suits its call and has no reply, or in none and has the reply it checks
  // for.  The MCP still owes a reply or a place to the cores in `debt`.
  predicate ClientOk(k: Client, queued: bool, owed: bool) {
    && (k.place.Some? <==> k.status.Stalled?)
    && (k.place.Some? ==> queued)
    && (k.phase.Gone? <==> k.status.Idle?)
    && match k.phase
       case Blocked(call) =>
         if owed then k.place.None? && k.inbox == []
         else if k.place.Some? then k.inbox == [] && Suits(call, k.place.value)
         else |k.inbox| == 1 && Fits(call, k.inbox[0])
       case _ => !owed && k.place.None? && k.inbox == []
  }

  // All queues at once.
  type Queues = Place -> seq<nat>

  function QueuesOf(s: State): Queues {
    p => Queue(s, p)
  }

  predicate CoreOk(clients: seq<Client>, q: Queues, c: nat, debt: set<nat>)
    requires c < |clients|
  {
    var k := clients[c];
    ClientOk(k, k.place.Some? ==> c in q(k.place.value), c in debt)
  }

  ghost predicate Consistent(clients: seq<Client>, q: Queues, debt: set<nat>) {
    && (forall p {:trigger PlaceOk(clients, p, q(p))} :: PlaceOk(clients, p, q(p)))
    && (forall c :: 0 <= c < |clients| ==> CoreOk(clients, q, c, debt))
    && (forall c :: c in debt ==> c < |clients|)
  }

  ghost predicate Inv(s: State, debt: set<nat>) {
    Consistent(s.clients, QueuesOf(s), debt)
  }

  // ---------------------------------------------------------------- stalling, resuming, replying

  // The core goes to the end of a queue: stallThread and push
  function Park(s: State, c: nat, p: Place): (r: State)
    requires c < |s.clients| && Exists(s, p)
    ensures forall p' {:trigger Queue(r, p')} :: Queue(r, p') == if p' == p then Queue(s, p) + [c] else Queue(s, p')
  {
    var r := SetQueue(s, p, Queue(s, p) + [c]);
    SameQueues(r, r.(clients := r.clients[c := r.clients[c].(status := Stalled, place := Some(p))]));
    r.(clients := r.clients[c := r.clients[c].(status := Stalled, place := Some(p))])
  }

  // The first core leaves a queue: pop and resumeThread
  function Unpark(s: State, p: Place): (r: State)
    requires Exists(s, p) && Queue(s, p) != [] && Queue(s, p)[0] < |s.clients|
    ensures forall p' {:trigger Queue(r, p')} :: Queue(r, p') == if p' == p then Queue(s, p)[1..] else Queue(s, p')
  {
    var (c, r) := (Queue(s, p)[0], SetQueue(s, p, Queue(s, p)[1..]));
    SameQueues(r, r.(clients := r.clients[c := r.clients[c].(status := Running, place := None)]));
    r.(clients := r.clients[c := r.clients[c].(status := Running, place := None)])
  }

  // netSend
  function Send(s: State, c: nat, reply: Reply): (r: State)
    requires c < |s.clients|
    ensures forall p {:trigger Queue(r, p)} :: Queue(r, p) == Queue(s, p)
  {
    SameQueues(s, s.(clients := s.clients[c := s.clients[c].(inbox := s.clients[c].inbox + [reply])]));
    s.(clients := s.clients[c := s.clients[c].(inbox := s.clients[c].inbox + [reply])])
  }

  // Queues do not depend on the clients.
  lemma SameQueues(s: State, r: State)
    requires r == s.(clients := r.clients)
    ensures forall p {:trigger Queue(r, p)} :: Queue(r, p) == Queue(s, p)
  {}

  function CallOf(s: State, c: nat): Call
    requires c < |s.clients| && s.clients[c].phase.Blocked?
  {
    s.clients[c].phase.call
  }

  // One queue changes.
  ghost predicate Changed(q: Queues, q': Queues, p: Place, list: seq<nat>) {
    forall p' :: q'(p') == if p' == p then list else q(p')
  }

  lemma {:induction false} ParkConsistent(clients: seq<Client>, q: Queues, q': Queues, c: nat, p: Place, debt: set<nat>)
    requires Consistent(clients, q, debt) && c in debt && c < |clients|
    requires clients[c].phase.Blocked? && Suits(clients[c].phase.call, p) && Changed(q, q', p, q(p) + [c])
    ensures Consistent(clients[c := clients[c].(status := Stalled, place := Some(p))], q', debt - {c})
  {
    var clients' := clients[c := clients[c].(status := Stalled, place := Some(p))];
    assert CoreOk(clients, q, c, debt);
    forall p' ensures PlaceOk(clients', p', q'(p')) {
      assert PlaceOk(clients, p', q(p'));
    }
    forall d | 0 <= d < |clients'| ensures CoreOk(clients', q', d, debt - {c}) {
      assert CoreOk(clients, q, d, debt);
      assert q'(p)[|q(p)|] == c;
    }
  }

  lemma {:induction false} UnparkConsistent(clients: seq<Client>, q: Queues, q': Queues, p: Place, debt: set<nat>)
    requires Consistent(clients, q, debt) && q(p) != [] && Changed(q, q', p, q(p)[1..])
    ensures var c := q(p)[0];
      && c < |clients| && c !in debt && clients[c].phase.Blocked? && Suits(clients[c].phase.call, p)
      && Consistent(clients[c := clients[c].(status := Running, place := None)], q', debt + {c})
  {
    var c := q(p)[0];
    assert PlaceOk(clients, p, q(p));
    assert CoreOk(clients, q, c, debt);
    var clients' := clients[c := clients[c].(status := Running, place := None)];
    forall p' ensures PlaceOk(clients', p', q'(p')) {
      assert PlaceOk(clients, p', q(p'));
      if p' == p {
        PlaceTail(clients, clients', p, q(p));
      } else {
        PlaceSame(clients, clients', p', q(p'), c);
      }
    }
    forall d | 0 <= d < |clients'| ensures CoreOk(clients', q', d, debt + {c}) {
      assert CoreOk(clients, q, d, debt);
      TailHas(q(p), d);
    }
  }

  lemma {:induction false} PlaceTail(clients: seq<Client>, clients': seq<Client>, p: Place, q: seq<nat>)
    requires PlaceOk(clients, p, q) && q != [] && |clients'| == |clients|
    requires forall d :: 0 <= d < |clients| && d != q[0] ==> clients'[d] == clients[d]
    ensures PlaceOk(clients', p, q[1..])
  {}

  lemma {:induction false} PlaceSame(clients: seq<Client>, clients': seq<Client>, p: Place, q: seq<nat>, c: nat)
    requires PlaceOk(clients, p, q) && c < |clients| == |clients'| && clients[c].place != Some(p)
    requires forall d :: 0 <= d < |clients| && d != c ==> clients'[d] == clients[d]
    ensures PlaceOk(clients', p, q)
  {}

  lemma TailHas(q: seq<nat>, d: nat)
    requires q != []
    ensures d in q && d != q[0] ==> d in q[1..]
  {
    assert q == [q[0]] + q[1..];
  }

  lemma {:induction false} SendConsistent(clients: seq<Client>, q: Queues, c: nat, reply: Reply, debt: set<nat>)
    requires Consistent(clients, q, debt) && c in debt && c < |clients|
    requires clients[c].phase.Blocked? && Fits(clients[c].phase.call, reply)
    ensures Consistent(clients[c := clients[c].(inbox := clients[c].inbox + [reply])], q, debt - {c})
  {
    var clients' := clients[c := clients[c].(inbox := clients[c].inbox + [reply])];
    forall p ensures PlaceOk(clients', p, q(p)) {
      assert PlaceOk(clients, p, q(p));
    }
    forall d | 0 <= d < |clients'| ensures CoreOk(clients', q, d, debt - {c}) {
      assert CoreOk(clients, q, d, debt);
    }
  }

  lemma {:induction false} ParkKeepsInv(s: State, c: nat, p: Place, debt: set<nat>)
    requires Inv(s, debt) && c in debt && c < |s.clients| && Exists(s, p)
    requires s.clients[c].phase.Blocked? && Suits(CallOf(s, c), p)
    ensures Inv(Park(s, c, p), debt - {c})
  {
    ParkConsistent(s.clients, QueuesOf(s), QueuesOf(Park(s, c, p)), c, p, debt);
  }

  lemma {:induction false} UnparkKeepsInv(s: State, p: Place, debt: set<nat>)
    requires Inv(s, debt) && Exists(s, p) && Queue(s, p) != []
    ensures var c := Queue(s, p)[0];
      && c < |s.clients| && c !in debt && s.clients[c].phase.Blocked? && Suits(CallOf(s, c), p)
      && Inv(Unpark(s, p), debt + {c})
  {
    assert PlaceOk(s.clients, p, QueuesOf(s)(p));
    UnparkConsistent(s.clients, QueuesOf(s), QueuesOf(Unpark(s, p)), p, debt);
  }

  lemma {:induction false} SendKeepsInv(s: State, c: nat, reply: Reply, debt: set<nat>)
    requires Inv(s, debt) && c in debt && c < |s.clients|
    requires s.clients[c].phase.Blocked? && Fits(CallOf(s, c), reply)
    ensures Inv(Send(s, c, reply), debt - {c})
  {
    SendConsistent(s.clients, QueuesOf(s), c, reply, debt);
    FrameKeepsInv(Send(s, c, reply), QueuesOf(s), debt - {c});
  }

  // Only queues and clients matter.
  lemma {:induction false} FrameKeepsInv(r: State, q: Queues, debt: set<nat>)
    requires Consistent(r.clients, q, debt) && forall p :: Queue(r, p) == q(p)
    ensures Inv(r, debt)
  {
    forall p ensures PlaceOk(r.clients, p, QueuesOf(r)(p)) {
      assert PlaceOk(r.clients, p, q(p));
    }
    forall c | 0 <= c < |r.clients| ensures CoreOk(r.clients, QueuesOf(r), c, debt) {
      assert CoreOk(r.clients, q, c, debt);
    }
  }
}
