/**
 Who holds a mutex.  The MCP records one owner; the clients believe to hold what
 they were granted.  The two agree as long as no condition variable is signalled
 whose waiters have different mutexes.
 */
module SyncOwners {
  import opened SyncModel
  import opened SyncHandlers
  import opened SyncProofs

  // The mutex that the reply to a call grants.
  function Grant(call: Call): Option<nat> {
    if call.MutexLock? || call.CondWait? then Some(call.mux) else None
  }

  // The mutex that a call gives up.
  function GivesUp(call: Call): Option<nat> {
    if call.MutexUnlock? || call.CondWait? then Some(call.mux) else None
  }

  // The client holds the mutex, or the reply that grants it is on its way.
  predicate Holds(k: Client, m: nat) {
    m in k.held || (k.phase.Blocked? && k.place.None? && k.inbox != [] && Grant(k.phase.call) == Some(m))
  }

  ghost predicate Owns(s: State, c: nat)
    requires c < |s.clients|
  {
    forall m: nat :: Holds(s.clients[c], m) ==> m < |s.mutexes| && s.mutexes[m].owner == Some(c)
  }

  // What a thread has asked to give up it does not count as held any more.
  predicate GaveUp(k: Client) {
    (k.phase.Sent? || k.phase.Blocked?) && GivesUp(k.phase.call).Some? ==> GivesUp(k.phase.call).value !in k.held
  }

  // Core w is blocked in a call that will grant it mutex m.
  predicate Wants(s: State, w: nat, m: nat) {
    w < |s.clients| && s.clients[w].phase.Blocked? && Grant(s.clients[w].phase.call) == Some(m)
  }

  predicate AllWant(s: State, list: seq<nat>, m: nat) {
    forall i :: 0 <= i < |list| ==> Wants(s, list[i], m)
  }

  predicate Paired(s: State, cond: Cond) {
    |cond.waiting| == |cond.muxes| && forall i :: 0 <= i < |cond.muxes| ==> cond.muxes[i] < |s.mutexes| && Wants(s, cond.waiting[i], cond.muxes[i])
  }

  predicate OneMutex(muxes: seq<nat>) {
    forall i, j :: 0 <= i < j < |muxes| ==> muxes[i] == muxes[j]
  }

  ghost predicate OwnInv(s: State) {
    && (forall c :: 0 <= c < |s.clients| ==> Owns(s, c) && GaveUp(s.clients[c]))
    && (forall m :: 0 <= m < |s.mutexes| ==> AllWant(s, s.mutexes[m].waiting, m))
    && (forall k :: 0 <= k < |s.conds| ==> Paired(s, s.conds[k]))
  }

  // No mutex has two holders.
  lemma {:induction false} OneHolder(s: State, c: nat, d: nat, m: nat)
    requires OwnInv(s) && c < |s.clients| && d < |s.clients| && Holds(s.clients[c], m) && Holds(s.clients[d], m)
    ensures c == d
  {
    assert Owns(s, c) && Owns(s, d);
  }

  // ---------------------------------------------------------------- erasing a waiter

  // Erasing the first waiter leaves the others with their own mutexes if and only
  // if all waiters have the same one.
  lemma {:induction false} EraseKeepsMutexes(muxes: seq<nat>)
    requires muxes != []
    ensures muxes[..|muxes| - 1] == muxes[1..] <==> OneMutex(muxes)
  {
    if muxes[..|muxes| - 1] == muxes[1..] {
      forall i, j | 0 <= i < j < |muxes| ensures muxes[i] == muxes[j] {
        SameAll(muxes, i, j);
      }
    }
  }

  lemma {:induction false} SameAll(muxes: seq<nat>, i: nat, j: nat)
    requires muxes != [] && muxes[..|muxes| - 1] == muxes[1..] && i <= j < |muxes|
    ensures muxes[i] == muxes[j]
    decreases j
  {
    if i < j {
      SameAll(muxes, i, j - 1);
      assert muxes[..|muxes| - 1][j - 1] == muxes[1..][j - 1];
    }
  }

  // After a signal the remaining waiters are recorded with their own mutexes if and
  // only if all that waited had the same one.
  lemma {:induction false} SignalKeepsMutexes(s: State, k: nat)
    requires CanWake(s, k) && Paired(s, s.conds[k])
    ensures k < |WakeOne(s, k).conds| && (Paired(WakeOne(s, k), WakeOne(s, k).conds[k]) <==> OneMutex(s.conds[k].muxes))
  {
    var (r, cond) := (WakeOne(s, k), s.conds[k]);
    var n := |cond.muxes| - 1;
    assert r.conds[k] == Cond(cond.waiting[1..], cond.muxes[..n]);
    EraseKeepsMutexes(cond.muxes);
    if Paired(r, r.conds[k]) {
      forall i | 0 <= i < n ensures cond.muxes[..n][i] == cond.muxes[1..][i] {
        assert Wants(r, r.conds[k].waiting[i], r.conds[k].muxes[i]) && Wants(s, cond.waiting[i + 1], cond.muxes[i + 1]);
      }
      assert cond.muxes[..n] == cond.muxes[1..];
    } else if OneMutex(cond.muxes) {
      forall i | 0 <= i < n ensures r.conds[k].muxes[i] < |r.mutexes| && Wants(r, r.conds[k].waiting[i], r.conds[k].muxes[i]) {
        assert Wants(s, cond.waiting[i + 1], cond.muxes[i + 1]);
      }
    }
  }

  // Core 1 waits with mutex 0 and core 2 with mutex 1; after one signal, mutex 0 is recorded for core 2.
  lemma {:induction false} SignalMixesMutexes(s: State)
    requires |s.clients| > 2 && |s.mutexes| == 2 && |s.conds| == 1 && s.conds[0] == Cond([1, 2], [0, 1])
    ensures WakeOne(s, 0).conds[0] == Cond([2], [0])
  {
    assert [1, 2][1..] == [2] && [0, 1][..1] == [0];
  }

  // ---------------------------------------------------------------- mutexes

  // Nothing but places, statuses, inboxes and queues of others changes.
  lemma {:induction false} SetOwnerOwn(s: State, m: nat, owner: Option<nat>)
    requires OwnInv(s) && m < |s.mutexes|
    requires forall c :: 0 <= c < |s.clients| && Holds(s.clients[c], m) ==> owner == Some(c)
    ensures OwnInv(SetOwner(s, m, owner))
  {
    var r := SetOwner(s, m, owner);
    forall c | 0 <= c < |r.clients| ensures Owns(r, c) {
      assert Owns(s, c);
    }
    forall m' | 0 <= m' < |r.mutexes| ensures AllWant(r, r.mutexes[m'].waiting, m') {
      assert AllWant(s, s.mutexes[m'].waiting, m');
    }
    forall k | 0 <= k < |r.conds| ensures Paired(r, r.conds[k]) {
      assert Paired(s, s.conds[k]);
    }
  }

  lemma {:induction false} SendOwn(s: State, c: nat, reply: Reply)
    requires OwnInv(s) && c < |s.clients|
    requires s.clients[c].phase.Blocked? && Grant(CallOf(s, c)).Some? ==>
      Grant(CallOf(s, c)).value < |s.mutexes| && s.mutexes[Grant(CallOf(s, c)).value].owner == Some(c)
    ensures OwnInv(Send(s, c, reply))
  {
    var r := Send(s, c, reply);
    forall d | 0 <= d < |r.clients| ensures Owns(r, d) && GaveUp(r.clients[d]) {
      assert Owns(s, d) && GaveUp(s.clients[d]);
      forall m': nat | Holds(r.clients[d], m') ensures m' < |r.mutexes| && r.mutexes[m'].owner == Some(d) {
        assert Holds(s.clients[d], m') || (d == c && Grant(CallOf(s, c)) == Some(m'));
      }
    }
    forall m | 0 <= m < |r.mutexes| ensures AllWant(r, r.mutexes[m].waiting, m) {
      assert AllWant(s, s.mutexes[m].waiting, m);
    }
    forall k | 0 <= k < |r.conds| ensures Paired(r, r.conds[k]) {
      assert Paired(s, s.conds[k]);
    }
  }

  // Into a mutex queue
  lemma {:induction false} ParkOwn(s: State, c: nat, m: nat)
    requires OwnInv(s) && m < |s.mutexes| && Wants(s, c, m)
    ensures OwnInv(Park(s, c, InMutex(m)))
  {
    var r := Park(s, c, InMutex(m));
    forall d | 0 <= d < |r.clients| ensures Owns(r, d) && GaveUp(r.clients[d]) {
      assert Owns(s, d) && GaveUp(s.clients[d]);
      forall m': nat | Holds(r.clients[d], m') ensures m' < |r.mutexes| && r.mutexes[m'].owner == Some(d) {
        assert Holds(s.clients[d], m');
      }
    }
    forall m' | 0 <= m' < |r.mutexes| ensures AllWant(r, r.mutexes[m'].waiting, m') {
      assert AllWant(s, s.mutexes[m'].waiting, m');
    }
    forall k | 0 <= k < |r.conds| ensures Paired(r, r.conds[k]) {
      assert Paired(s, s.conds[k]);
    }
  }

  // Out of a mutex queue
  lemma {:induction false} UnparkOwn(s: State, m: nat)
    requires OwnInv(s) && m < |s.mutexes| && s.mutexes[m].waiting != []
    requires s.mutexes[m].waiting[0] < |s.clients| && s.clients[s.mutexes[m].waiting[0]].inbox == []
    ensures OwnInv(Unpark(s, InMutex(m))) && Wants(Unpark(s, InMutex(m)), s.mutexes[m].waiting[0], m)
  {
    var r := Unpark(s, InMutex(m));
    assert AllWant(s, s.mutexes[m].waiting, m);
    forall d | 0 <= d < |r.clients| ensures Owns(r, d) && GaveUp(r.clients[d]) {
      assert Owns(s, d) && GaveUp(s.clients[d]);
      forall m': nat | Holds(r.clients[d], m') ensures m' < |r.mutexes| && r.mutexes[m'].owner == Some(d) {
        assert Holds(s.clients[d], m');
      }
    }
    forall m' | 0 <= m' < |r.mutexes| ensures AllWant(r, r.mutexes[m'].waiting, m') {
      assert AllWant(s, s.mutexes[m'].waiting, m');
    }
    forall k | 0 <= k < |r.conds| ensures Paired(r, r.conds[k]) {
      assert Paired(s, s.conds[k]);
    }
  }

  lemma {:induction false} LockOwn(s: State, m: nat, c: nat)
    requires OwnInv(s) && m < |s.mutexes| && Wants(s, c, m)
    ensures OwnInv(LockMutex(s, m, c))
    ensures Free(s, m) ==> LockMutex(s, m, c).mutexes[m].owner == Some(c)
  {
    if Free(s, m) {
      forall d | 0 <= d < |s.clients| ensures !Holds(s.clients[d], m) {
        assert Owns(s, d);
      }
      SetOwnerOwn(s, m, Some(c));
    } else {
      ParkOwn(s, c, m);
    }
  }

  // The owner gives the mutex up, and it goes to the next in line.
  lemma {:induction false} PassOnOwn(s: State, m: nat, c: nat, time: nat, debt: set<nat>)
    requires OwnInv(s) && Inv(s, debt) && m < |s.mutexes| && c < |s.clients|
    requires s.mutexes[m].owner == Some(c) && !Holds(s.clients[c], m)
    ensures NextOwner(s, m).Some? ==> NextOwner(s, m).value < |s.clients|
    ensures OwnInv(PassOn(s, m, time))
  {
    forall d | 0 <= d < |s.clients| ensures !Holds(s.clients[d], m) {
      assert Owns(s, d);
    }
    var q := Queue(s, InMutex(m));
    if q == [] {
      SetOwnerOwn(s, m, None);
    } else {
      QueueIsOk(s, InMutex(m), debt);
      UnparkKeepsInv(s, InMutex(m), debt);
      assert CoreOk(s.clients, QueuesOf(s), q[0], debt) && PlaceOk(s.clients, InMutex(m), QueuesOf(s)(InMutex(m)));
      UnparkOwn(s, m);
      var u := Unpark(s, InMutex(m));
      forall d | 0 <= d < |u.clients| ensures !Holds(u.clients[d], m) {
        assert !Holds(s.clients[d], m);
      }
      SetOwnerOwn(u, m, Some(q[0]));
      SendOwn(SetOwner(u, m, Some(q[0])), q[0], Granted(time));
    }
  }

  // ---------------------------------------------------------------- condition variables

  lemma {:induction false} AwaitOwn(s: State, c: nat, k: nat, m: nat)
    requires OwnInv(s) && k < |s.conds| && m < |s.mutexes| && Wants(s, c, m)
    ensures OwnInv(Await(s, c, k, m))
  {
    var r := Await(s, c, k, m);
    forall d | 0 <= d < |r.clients| ensures Owns(r, d) && GaveUp(r.clients[d]) {
      assert Owns(s, d) && GaveUp(s.clients[d]);
      forall m': nat | Holds(r.clients[d], m') ensures m' < |r.mutexes| && r.mutexes[m'].owner == Some(d) {
        assert Holds(s.clients[d], m');
      }
    }
    forall m' | 0 <= m' < |r.mutexes| ensures AllWant(r, r.mutexes[m'].waiting, m') {
      assert AllWant(s, s.mutexes[m'].waiting, m');
    }
    forall k' | 0 <= k' < |r.conds| ensures Paired(r, r.conds[k']) {
      assert Paired(s, s.conds[k']);
    }
  }

  // The first waiter leaves, and the mutexes move up as they should.
  lemma {:induction false} LeaveOwn(s: State, k: nat)
    requires OwnInv(s) && CanWake(s, k) && s.clients[s.conds[k].waiting[0]].inbox == []
    ensures var r := SetMuxes(Unpark(s, InCond(k)), k, s.conds[k].muxes[1..]);
      OwnInv(r) && Wants(r, s.conds[k].waiting[0], s.conds[k].muxes[0])
  {
    var r := SetMuxes(Unpark(s, InCond(k)), k, s.conds[k].muxes[1..]);
    assert Paired(s, s.conds[k]);
    forall d | 0 <= d < |r.clients| ensures Owns(r, d) && GaveUp(r.clients[d]) {
      assert Owns(s, d) && GaveUp(s.clients[d]);
      forall m': nat | Holds(r.clients[d], m') ensures m' < |r.mutexes| && r.mutexes[m'].owner == Some(d) {
        assert Holds(s.clients[d], m');
      }
    }
    forall m' | 0 <= m' < |r.mutexes| ensures AllWant(r, r.mutexes[m'].waiting, m') {
      assert AllWant(s, s.mutexes[m'].waiting, m');
    }
    forall k' | 0 <= k' < |r.conds| ensures Paired(r, r.conds[k']) {
      assert Paired(s, s.conds[k']);
    }
  }

  // A waiting core has no reply.
  lemma {:induction false} NoReplyYet(s: State, k: nat, debt: set<nat>)
    requires Inv(s, debt) && CanWake(s, k)
    ensures s.clients[s.conds[k].waiting[0]].inbox == []
  {
    var c := s.conds[k].waiting[0];
    assert PlaceOk(s.clients, InCond(k), QueuesOf(s)(InCond(k)));
    assert CoreOk(s.clients, QueuesOf(s), c, debt);
  }

  // The mutex that core c wants is its own.
  predicate GrantedTo(s: State, c: nat) {
    && c < |s.clients| && s.clients[c].phase.Blocked? && Grant(s.clients[c].phase.call).Some?
    && Grant(s.clients[c].phase.call).value < |s.mutexes|
    && s.mutexes[Grant(s.clients[c].phase.call).value].owner == Some(c)
  }

  predicate AllGranted(s: State, list: seq<nat>) {
    forall i :: 0 <= i < |list| ==> GrantedTo(s, list[i])
  }

  lemma {:induction false} SignalOwn(s: State, k: nat, debt: set<nat>)
    requires OwnInv(s) && Inv(s, debt) && CanWake(s, k) && OneMutex(s.conds[k].muxes)
    ensures OwnInv(WakeOne(s, k))
    ensures Free(s, s.conds[k].muxes[0]) ==> GrantedTo(WakeOne(s, k), s.conds[k].waiting[0])
  {
    NoReplyYet(s, k, debt);
    LeaveOwn(s, k);
    EraseKeepsMutexes(s.conds[k].muxes);
    var r := SetMuxes(Unpark(s, InCond(k)), k, s.conds[k].muxes[1..]);
    LockOwn(r, s.conds[k].muxes[0], s.conds[k].waiting[0]);
  }

  ghost predicate WakesOwn(s0: State, k: nat, debt: set<nat>, time: nat, w: Waking) {
    Wakes(s0, k, debt, time, w) && OwnInv(w.s) && AllGranted(w.s, w.woken)
  }

  lemma {:induction false} WakeNextOwn(s0: State, k: nat, debt: set<nat>, time: nat, w: Waking)
    requires WakesOwn(s0, k, debt, time, w)
    ensures WakesOwn(s0, k, debt, time, WakeNext(w, k))
  {
    WakeNextKeeps(s0, k, debt, time, w);
    if CanWake(w.s, k) {
      NoReplyYet(w.s, k, debt + SetOf(w.woken));
      LeaveOwn(w.s, k);
      var (c, m) := (w.s.conds[k].waiting[0], w.s.conds[k].muxes[0]);
      var r := SetMuxes(Unpark(w.s, InCond(k)), k, w.s.conds[k].muxes[1..]);
      LockOwn(r, m, c);
      GrantedStays(w.s, LockMutex(r, m, c), w.woken, m);
    }
  }

  // Owners other than of a free mutex stay.
  lemma {:induction false} GrantedStays(s: State, r: State, list: seq<nat>, m: nat)
    requires AllGranted(s, list) && m < |s.mutexes| == |r.mutexes| && |r.clients| == |s.clients|
    requires forall c :: 0 <= c < |s.clients| ==> r.clients[c].phase == s.clients[c].phase
    requires forall m' :: 0 <= m' < |s.mutexes| && (m' != m || !Free(s, m)) ==> r.mutexes[m'].owner == s.mutexes[m'].owner
    ensures AllGranted(r, list)
  {
    forall i | 0 <= i < |list| ensures GrantedTo(r, list[i]) {
      assert GrantedTo(s, list[i]);
    }
  }

  lemma {:induction false} SendAllOwn(s: State, list: seq<nat>, reply: Reply)
    requires OwnInv(s) && AllGranted(s, list)
    ensures OwnInv(SendAll(s, list, reply))
    decreases |list|
  {
    if list != [] {
      assert GrantedTo(s, list[0]);
      SendOwn(s, list[0], reply);
      var r := Send(s, list[0], reply);
      forall i | 0 <= i < |list[1..]| ensures GrantedTo(r, list[1..][i]) {
        assert GrantedTo(s, list[i + 1]);
      }
      SendAllOwn(r, list[1..], reply);
    }
  }

  // ---------------------------------------------------------------- everything else

  predicate Granting(k: Client) {
    k.phase.Blocked? && Grant(k.phase.call).Some?
  }

  // Mutexes, condition variables and the cores that wait for a mutex are left alone.
  predicate Apart(s: State, r: State) {
    && r.mutexes == s.mutexes && r.conds == s.conds && |r.joiners| == |s.joiners| && SamePhases(s, r)
    && forall c :: 0 <= c < |s.clients| && Granting(s.clients[c]) ==> r.clients[c] == s.clients[c]
  }

  lemma {:induction false} ApartOwn(s: State, r: State)
    requires OwnInv(s) && Apart(s, r)
    ensures OwnInv(r)
  {
    forall d | 0 <= d < |r.clients| ensures Owns(r, d) && GaveUp(r.clients[d]) {
      assert Owns(s, d) && GaveUp(s.clients[d]);
      forall m': nat | Holds(r.clients[d], m') ensures m' < |r.mutexes| && r.mutexes[m'].owner == Some(d) {
        assert Holds(s.clients[d], m');
      }
    }
    forall m' | 0 <= m' < |r.mutexes| ensures AllWant(r, r.mutexes[m'].waiting, m') {
      assert AllWant(s, s.mutexes[m'].waiting, m');
    }
    forall k' | 0 <= k' < |r.conds| ensures Paired(r, r.conds[k']) {
      assert Paired(s, s.conds[k']);
    }
  }

  // Queues of the other kinds.
  predicate Other(p: Place) {
    p.InBarrier? || p.InFutex? || p.InJoin?
  }

  lemma {:induction false} ParkApart(s: State, c: nat, p: Place)
    requires c < |s.clients| && Exists(s, p) && Other(p) && !Granting(s.clients[c])
    ensures Apart(s, Park(s, c, p))
  {}

  lemma {:induction false} UnparkApart(s: State, p: Place, debt: set<nat>)
    requires Inv(s, debt) && Exists(s, p) && Other(p) && Queue(s, p) != []
    ensures Queue(s, p)[0] < |s.clients| && !Granting(s.clients[Queue(s, p)[0]]) && Apart(s, Unpark(s, p))
  {
    UnparkKeepsInv(s, p, debt);
  }

  lemma {:induction false} SendApart(s: State, c: nat, reply: Reply)
    requires c < |s.clients| && !Granting(s.clients[c])
    ensures Apart(s, Send(s, c, reply))
  {}

  lemma {:induction false} ApartTrans(s: State, r: State, t: State)
    requires Apart(s, r) && Apart(r, t)
    ensures Apart(s, t)
  {}

  lemma {:induction false} NotifyApart(s: State, addr: int, debt: set<nat>)
    requires Inv(s, debt)
    ensures Apart(s, Notify(s, addr))
  {
    var (p, q) := (InFutex(addr), Queue(s, InFutex(addr)));
    if q != [] && q[0] < |s.clients| {
      UnparkApart(s, p, debt);
      SendApart(Unpark(s, p), q[0], FutexResult(0));
      ApartTrans(s, Unpark(s, p), Notify(s, addr));
    }
  }

  lemma {:induction false} MoveApart(s: State, addr: int, addr2: int, debt: set<nat>)
    requires Inv(s, debt)
    ensures Apart(s, Move(s, addr, addr2))
  {
    var (p, q) := (InFutex(addr), Queue(s, InFutex(addr)));
    if q != [] && q[0] < |s.clients| {
      UnparkApart(s, p, debt);
      ParkApart(Unpark(s, p), q[0], InFutex(addr2));
      ApartTrans(s, Unpark(s, p), Move(s, addr, addr2));
    }
  }

  ghost predicate KeepsApart(s0: State, debt: set<nat>, x: State) {
    Keeps(s0, debt, x) && Apart(s0, x)
  }

  lemma {:induction false} WakeFutexApart(s: State, addr: int, val: int, debt: set<nat>)
    requires Inv(s, debt)
    ensures KeepsApart(s, debt, WakeFutex(s, addr, val))
  {
    forall x | KeepsApart(s, debt, x) ensures KeepsApart(s, debt, Notify(x, addr)) {
      NotifyKeepsInv(x, addr, debt);
      NotifyApart(x, addr, debt);
      ApartTrans(s, x, Notify(x, addr));
    }
    RepeatKeeps(x => Notify(x, addr), NonNegative(val), s, x => KeepsApart(s, debt, x));
  }

  lemma {:induction false} RequeueApart(s: State, addr: int, addr2: int, val: int, debt: set<nat>)
    requires Inv(s, debt)
    ensures KeepsApart(s, debt, Requeue(s, addr, addr2, val))
  {
    forall x | KeepsApart(s, debt, x) ensures KeepsApart(s, debt, Move(x, addr, addr2)) {
      MoveKeepsInv(x, addr, addr2, debt);
      MoveApart(x, addr, addr2, debt);
      ApartTrans(s, x, Move(x, addr, addr2));
    }
    RepeatKeeps(x => Move(x, addr, addr2), NonNegative(val), s, x => KeepsApart(s, debt, x));
  }

  lemma {:induction false} AnswerApart(s: State, x: State, c: nat, value: int)
    requires Apart(s, x) && c < |s.clients| && !Granting(s.clients[c])
    ensures Apart(s, Answer(x, c, value))
  {
    assert !Granting(x.clients[c]);
    SendApart(x, c, FutexResult(value));
    ApartTrans(s, x, Answer(x, c, value));
  }

  lemma {:induction false} DoFutexApart(s: State, c: nat, call: Call)
    requires Inv(s, {c}) && c < |s.clients| && s.clients[c].phase == Blocked(call) && IsFutex(call)
    ensures Apart(s, DoFutex(s, c, call))
  {
    match call
    case FutexWait(a, equal) => {
      ParkApart(s, c, InFutex(a));
      AnswerApart(s, s, c, -EWOULDBLOCK);
    }
    case FutexWake(a, val) => {
      WakeFutexApart(s, a, val, {c});
      AnswerApart(s, WakeFutex(s, a, val), c, WakeCount(s, a, val));
    }
    case FutexWakeOp(a, val, a2, val2, condition) => {
      var (r, n) := (WakeFutex(s, a, val), WakeCount(s, a, val));
      WakeFutexApart(s, a, val, {c});
      if condition {
        WakeFutexApart(r, a2, val2, {c});
        ApartTrans(s, r, WakeFutex(r, a2, val2));
        AnswerApart(s, WakeFutex(r, a2, val2), c, n + WakeCount(r, a2, val2));
      } else {
        AnswerApart(s, r, c, n);
      }
    }
    case FutexCmpRequeue(a, val, a2, val2, equal) => {
      var (r, n) := (WakeFutex(s, a, val), WakeCount(s, a, val));
      if equal {
        WakeFutexApart(s, a, val, {c});
        RequeueApart(r, a, a2, val2, {c});
        ApartTrans(s, r, Requeue(r, a, a2, val2));
        AnswerApart(s, Requeue(r, a, a2, val2), c, n + RequeueCount(r, a, a2, val2));
      } else {
        AnswerApart(s, s, c, -EWOULDBLOCK);
      }
    }
  }

  lemma {:induction false} ReleaseApart(s: State, p: Place, debt: set<nat>)
    requires Inv(s, debt) && Exists(s, p) && Other(p)
    ensures QueueOk(s, p) && Apart(s, Release(s, p))
    decreases |Queue(s, p)|
  {
    QueueIsOk(s, p, debt);
    if Queue(s, p) != [] {
      UnparkApart(s, p, debt);
      UnparkKeepsInv(s, p, debt);
      UnparkExists(s, p);
      ReleaseApart(Unpark(s, p), p, debt + {Queue(s, p)[0]});
      ApartTrans(s, Unpark(s, p), Release(s, p));
    }
  }

  lemma {:induction false} SendAllApart(s: State, list: seq<nat>, reply: Reply)
    requires forall i :: 0 <= i < |list| ==> list[i] < |s.clients| && !Granting(s.clients[list[i]])
    ensures Apart(s, SendAll(s, list, reply))
    decreases |list|
  {
    if list != [] {
      SendApart(s, list[0], reply);
      var r := Send(s, list[0], reply);
      forall i | 0 <= i < |list[1..]| ensures list[1..][i] < |r.clients| && !Granting(r.clients[list[1..][i]]) {
        assert list[1..][i] == list[i + 1];
      }
      SendAllApart(r, list[1..], reply);
      ApartTrans(s, r, SendAll(r, list[1..], reply));
    }
  }

  lemma {:induction false} OpenApart(s: State, b: nat)
    requires Inv(s, {}) && b < |s.barriers|
    ensures QueueOk(s, InBarrier(b)) && Apart(s, Open(s, b))
  {
    var q := s.barriers[b].waiting;
    QueueIsOk(s, InBarrier(b), {});
    ReleaseApart(s, InBarrier(b), {});
    var r := Release(s, InBarrier(b));
    forall i | 0 <= i < |q| ensures q[i] < |r.clients| && !Granting(r.clients[q[i]]) {
      assert q[i] == Queue(s, InBarrier(b))[i];
    }
    SendAllApart(r, q, Timed(BARRIER_WAIT_RESPONSE, s.barriers[b].maxTime));
    ApartTrans(s, r, Open(s, b));
  }

  lemma {:induction false} DoBarrierWaitApart(s: State, c: nat, b: nat, time: nat)
    requires Inv(s, {c}) && c < |s.clients| && s.clients[c].phase == Blocked(BarrierWait(b)) && b < |s.barriers|
    ensures Queued(s) && Apart(s, DoBarrierWait(s, c, b, time))
  {
    InvQueued(s, {c});
    ArriveKeepsInv(s, b, c, time);
    var r := Arrive(s, b, c, time);
    ParkApart(s, c, InBarrier(b));
    assert Apart(s, r);
    if |r.barriers[b].waiting| >= r.barriers[b].count {
      OpenApart(r, b);
      ApartTrans(s, r, Open(r, b));
    }
  }

  lemma {:induction false} WakeJoinerApart(s: State, t: nat, time: nat)
    requires Inv(s, {}) && t < |s.joiners|
    ensures Queued(s) && Apart(s, WakeJoiner(s, t, time))
  {
    InvQueued(s, {});
    if s.joiners[t] != [] {
      UnparkApart(s, InJoin(t), {});
      var u := Unpark(s, InJoin(t));
      SendApart(u, s.joiners[t][0], JoinReply(time));
      ApartTrans(s, u, WakeJoiner(s, t, time));
    }
  }

  lemma {:induction false} DoJoinApart(s: State, c: nat, t: nat, time: nat)
    requires Inv(s, {c}) && c < |s.clients| && s.clients[c].phase == Blocked(Join(t)) && t < |s.joiners| && t < |s.clients|
    ensures Queued(s) && Apart(s, DoJoin(s, c, t, time))
  {
    InvQueued(s, {c});
    ParkKeepsInv(s, c, InJoin(t), {c});
    assert {c} - {c} == {};
    var r := Park(s, c, InJoin(t));
    ParkApart(s, c, InJoin(t));
    WakeJoinerApart(r, t, time);
    ApartTrans(s, r, WakeJoiner(r, t, time));
  }
}
