/**
 Futex queues: who is woken, who is moved, in which order, and that nobody is
 lost (the futex handlers of common/system/syscall_server.cc).
 */
module SyncFutexes {
  import opened Arithmetic
  import opened SyncModel
  import opened SyncHandlers
  import opened SyncProofs
  import opened SyncRuns
  import opened SyncTheorems

  // q without its first n, and its first n
  function After(q: seq<nat>, n: nat): seq<nat> { if n < |q| then q[n..] else [] }

  function First(q: seq<nat>, n: nat): seq<nat> { if n < |q| then q[..n] else q }

  // Nothing is lost between the two, nor doubled.
  lemma {:induction false} FirstAndAfter(q: seq<nat>, n: nat)
    ensures First(q, n) + After(q, n) == q && multiset(First(q, n)) + multiset(After(q, n)) == multiset(q)
  {
    assert First(q, n) + After(q, n) == q;
  }

  // A queue that names each core once.
  predicate ProperQueue(s: State, q: seq<nat>) {
    AllBelow(q, |s.clients|) && NoTwice(q)
  }

  // So is every queue in every state of every run.
  lemma {:induction false} QueuesProper(s: State, p: Place, debt: set<nat>)
    requires Inv(s, debt)
    ensures ProperQueue(s, Queue(s, p))
  {
    assert PlaceOk(s.clients, p, QueuesOf(s)(p));
  }

  // ---------------------------------------------------------------- waking

  function InboxAfter(s: State, q: seq<nat>, n: nat, d: nat): seq<Reply>
    requires d < |s.clients|
  {
    if d in First(q, n) then s.clients[d].inbox + [FutexResult(0)] else s.clients[d].inbox
  }

  // The first n waiters have left, each with one reply; nothing else has changed.
  ghost predicate Woken(s: State, r: State, addr: int, n: nat) {
    var q := Queue(s, InFutex(addr));
    && |r.clients| == |s.clients| && Queue(r, InFutex(addr)) == After(q, n)
    && (forall p {:trigger Queue(r, p)} :: p != InFutex(addr) ==> Queue(r, p) == Queue(s, p))
    && (forall d :: 0 <= d < |s.clients| ==> r.clients[d].inbox == InboxAfter(s, q, n, d))
  }

  // One waiter wakes: the loop has one turn less to go.
  lemma {:induction false} WakeOnce(s: State, addr: int, n: nat) returns (u: State)
    requires ProperQueue(s, Queue(s, InFutex(addr))) && n > 0
    ensures ProperQueue(u, Queue(u, InFutex(addr))) && WakeFutex(s, addr, n) == WakeFutex(u, addr, n - 1)
    ensures if Queue(s, InFutex(addr)) == [] then u == s else Woken(s, u, addr, 1)
  {
    u := Notify(s, addr);
  }

  lemma {:induction false} FirstMore(q: seq<nat>, n: nat)
    requires q != [] && n > 0
    ensures First(q, n) == [q[0]] + First(q[1..], n - 1) && After(q, n) == After(q[1..], n - 1)
  {
    assert q == [q[0]] + q[1..];
  }

  lemma {:induction false} WokenMore(s: State, u: State, r: State, addr: int, n: nat)
    requires n > 0 && Queue(s, InFutex(addr)) != [] && NoTwice(Queue(s, InFutex(addr)))
    requires Woken(s, u, addr, 1) && Woken(u, r, addr, n - 1)
    ensures Woken(s, r, addr, n)
  {
    var q := Queue(s, InFutex(addr));
    FirstMore(q, n);
    assert After(q, 1) == q[1..];
    forall d | 0 <= d < |s.clients| ensures r.clients[d].inbox == InboxAfter(s, q, n, d) {
      assert r.clients[d].inbox == InboxAfter(u, q[1..], n - 1, d);
      assert u.clients[d].inbox == InboxAfter(s, q, 1, d);
    }
  }

  lemma {:induction false} WakeInOrder(s: State, addr: int, n: nat)
    requires ProperQueue(s, Queue(s, InFutex(addr)))
    ensures Woken(s, WakeFutex(s, addr, n), addr, n)
    decreases n
  {
    if n > 0 {
      var u := WakeOnce(s, addr, n);
      WakeInOrder(u, addr, n - 1);
      if Queue(s, InFutex(addr)) != [] {
        WokenMore(s, u, WakeFutex(u, addr, n - 1), addr, n);
      }
    }
  }

  // __futexWake wakes exactly the first min(max(val, 0), length) waiters, in order.
  lemma {:induction false} WakeFutexWakes(s: State, addr: int, val: int)
    requires ProperQueue(s, Queue(s, InFutex(addr)))
    ensures Woken(s, WakeFutex(s, addr, val), addr, NonNegative(val))
    ensures WakeCount(s, addr, val) == |First(Queue(s, InFutex(addr)), NonNegative(val))|
  {
    WakeInOrder(s, addr, NonNegative(val));
    assert WakeFutex(s, addr, NonNegative(val)) == WakeFutex(s, addr, val);
  }

  // ---------------------------------------------------------------- moving

  // The first n waiters are at the end of the other queue, in order; no reply is sent.
  ghost predicate Moved(s: State, r: State, addr: int, addr2: int, n: nat) {
    var q := Queue(s, InFutex(addr));
    && |r.clients| == |s.clients| && Queue(r, InFutex(addr)) == After(q, n)
    && Queue(r, InFutex(addr2)) == Queue(s, InFutex(addr2)) + First(q, n)
    && (forall p {:trigger Queue(r, p)} :: p != InFutex(addr) && p != InFutex(addr2) ==> Queue(r, p) == Queue(s, p))
    && (forall d :: 0 <= d < |s.clients| ==> r.clients[d].inbox == s.clients[d].inbox)
  }

  lemma {:induction false} MoveMoves(s: State, addr: int, addr2: int)
    requires ProperQueue(s, Queue(s, InFutex(addr))) && Queue(s, InFutex(addr)) != []
    ensures var (q, r) := (Queue(s, InFutex(addr)), Move(s, addr, addr2));
      && |r.clients| == |s.clients|
      && (forall p {:trigger Queue(r, p)} :: p != InFutex(addr) && p != InFutex(addr2) ==> Queue(r, p) == Queue(s, p))
      && (forall d :: 0 <= d < |s.clients| ==> r.clients[d].inbox == s.clients[d].inbox)
      && (addr != addr2 ==> Queue(r, InFutex(addr)) == q[1..] && Queue(r, InFutex(addr2)) == Queue(s, InFutex(addr2)) + [q[0]])
      && (addr == addr2 ==> Queue(r, InFutex(addr)) == q[1..] + [q[0]])
  {}

  lemma {:induction false} MoveOnce(s: State, addr: int, addr2: int, n: nat) returns (u: State)
    requires ProperQueue(s, Queue(s, InFutex(addr))) && addr != addr2 && n > 0
    ensures ProperQueue(u, Queue(u, InFutex(addr))) && Requeue(s, addr, addr2, n) == Requeue(u, addr, addr2, n - 1)
    ensures if Queue(s, InFutex(addr)) == [] then u == s else Moved(s, u, addr, addr2, 1)
  {
    u := Move(s, addr, addr2);
    if Queue(s, InFutex(addr)) != [] {
      MoveMoves(s, addr, addr2);
    }
  }

  // One more waiter moved first.
  lemma {:induction false} MovedMore(s: State, u: State, r: State, addr: int, addr2: int, n: nat)
    requires addr != addr2 && n > 0 && Queue(s, InFutex(addr)) != []
    requires Moved(s, u, addr, addr2, 1) && Moved(u, r, addr, addr2, n - 1)
    ensures Moved(s, r, addr, addr2, n)
  {
    var (q, q2) := (Queue(s, InFutex(addr)), Queue(s, InFutex(addr2)));
    FirstMore(q, n);
    assert q2 + [q[0]] + First(q[1..], n - 1) == q2 + First(q, n);
  }

  lemma {:induction false} RequeueInOrder(s: State, addr: int, addr2: int, n: nat)
    requires ProperQueue(s, Queue(s, InFutex(addr))) && addr != addr2
    ensures Moved(s, Requeue(s, addr, addr2, n), addr, addr2, n)
    decreases n
  {
    if n == 0 {
      assert Queue(s, InFutex(addr2)) + First(Queue(s, InFutex(addr)), 0) == Queue(s, InFutex(addr2));
    } else {
      var u := MoveOnce(s, addr, addr2, n);
      RequeueInOrder(u, addr, addr2, n - 1);
      if Queue(s, InFutex(addr)) != [] {
        MovedMore(s, u, Requeue(u, addr, addr2, n - 1), addr, addr2, n);
      }
    }
  }

  // The queue after its first n have gone to its end one after the other.
  function Rotated(q: seq<nat>, n: nat): seq<nat>
    requires q != []
    decreases n
  {
    if n == 0 then q else Rotated(q[1..] + [q[0]], n - 1)
  }

  // The first n have gone to the end of their own queue, one after the other; no reply is sent.
  ghost predicate Turned(s: State, r: State, addr: int, n: nat)
    requires Queue(s, InFutex(addr)) != []
  {
    && |r.clients| == |s.clients| && Queue(r, InFutex(addr)) == Rotated(Queue(s, InFutex(addr)), n)
    && (forall p {:trigger Queue(r, p)} :: p != InFutex(addr) ==> Queue(r, p) == Queue(s, p))
    && (forall d :: 0 <= d < |s.clients| ==> r.clients[d].inbox == s.clients[d].inbox)
  }

  lemma {:induction false} TurnOne(s: State, addr: int, n: nat) returns (u: State)
    requires ProperQueue(s, Queue(s, InFutex(addr))) && Queue(s, InFutex(addr)) != [] && n > 0
    ensures ProperQueue(u, Queue(u, InFutex(addr))) && Turned(s, u, addr, 1)
    ensures Queue(u, InFutex(addr)) == Queue(s, InFutex(addr))[1..] + [Queue(s, InFutex(addr))[0]]
    ensures Requeue(s, addr, addr, n) == Requeue(u, addr, addr, n - 1)
  {
    u := Move(s, addr, addr);
    MoveMoves(s, addr, addr);
  }

  lemma {:induction false} TurnedMore(s: State, u: State, r: State, addr: int, n: nat)
    requires n > 0 && Queue(s, InFutex(addr)) != [] && Turned(s, u, addr, 1)
    requires Queue(u, InFutex(addr)) == Queue(s, InFutex(addr))[1..] + [Queue(s, InFutex(addr))[0]]
    requires Turned(u, r, addr, n - 1)
    ensures Turned(s, r, addr, n)
  {}

  lemma {:induction false} RequeueRotates(s: State, addr: int, n: nat)
    requires ProperQueue(s, Queue(s, InFutex(addr))) && Queue(s, InFutex(addr)) != []
    ensures Turned(s, Requeue(s, addr, addr, n), addr, n)
    decreases n
  {
    if n > 0 {
      var u := TurnOne(s, addr, n);
      RequeueRotates(u, addr, n - 1);
      TurnedMore(s, u, Requeue(u, addr, addr, n - 1), addr, n);
    }
  }

  lemma {:induction false} RotatedPart(q: seq<nat>, n: nat)
    requires q != [] && n <= |q|
    ensures Rotated(q, n) == q[n..] + q[..n]
    decreases n
  {
    if n == 0 {
      assert q[0..] + q[..0] == q;
    } else {
      var t := q[1..] + [q[0]];
      RotatedPart(t, n - 1);
      assert t[n - 1..] == q[n..] + [q[0]];
      assert q[..n] == [q[0]] + t[..n - 1];
      assert t[n - 1..] + t[..n - 1] == q[n..] + q[..n];
    }
  }

  lemma {:induction false} RotatedTwice(q: seq<nat>, a: nat, b: nat)
    requires q != []
    ensures Rotated(q, a) != [] && Rotated(q, a + b) == Rotated(Rotated(q, a), b)
    decreases a
  {
    if a > 0 {
      RotatedTwice(q[1..] + [q[0]], a - 1, b);
    }
  }

  lemma OnceMore(n: nat, k: nat)
    requires 0 < k <= n
    ensures (n - k) % k == n % k
  {
    var (q, r) := ((n - k) / k, (n - k) % k);
    assert (q + 1) * k + r == n;
    DivMod(k, q + 1, r);
  }

  lemma {:induction false} RotatedRound(q: seq<nat>, n: nat)
    requires q != [] && n >= |q|
    ensures Rotated(q, n) == Rotated(q, n - |q|)
  {
    RotatedTwice(q, |q|, n - |q|);
    RotatedPart(q, |q|);
    assert q[|q|..] + q[..|q|] == q;
  }

  lemma {:induction false} RotatedRest(q: seq<nat>, n: nat, len: nat)
    requires q != [] && len == |q|
    ensures Rotated(q, n) == Rotated(q, n % len)
    decreases n
  {
    if n >= len {
      RotatedRound(q, n);
      RotatedRest(q, n - len, len);
      OnceMore(n, len);
    } else {
      assert n % len == n;
    }
  }

  // However often, it is a rotation: nobody is lost and nobody doubled.
  lemma {:induction false} RotatedWhole(q: seq<nat>, n: nat)
    requires q != []
    ensures Rotated(q, n) == q[n % |q|..] + q[..n % |q|]
  {
    RotatedRest(q, n, |q|);
    RotatedPart(q, n % |q|);
  }

  // The number that futexCmpRequeue reports for the moves is the number of waiters
  // moved if and only if the addresses differ or the queue is long enough.
  lemma RequeueCountExact(s: State, addr: int, addr2: int, val: int)
    ensures RequeueCount(s, addr, addr2, val) == |First(Queue(s, InFutex(addr)), NonNegative(val))|
       <==> addr != addr2 || Queue(s, InFutex(addr)) == [] || val <= |Queue(s, InFutex(addr))|
  {}

  // One waiter requeued ten times to its own address counts ten.
  lemma RequeueCountsAgain(s: State, addr: int, c: nat)
    requires Queue(s, InFutex(addr)) == [c]
    ensures RequeueCount(s, addr, addr, 10) == 10 && |First(Queue(s, InFutex(addr)), 10)| == 1
  {}

  // ---------------------------------------------------------------- compare and requeue

  lemma {:induction false} Conserved(q: seq<nat>, q2: seq<nat>, n: nat, m: nat)
    ensures multiset(First(q, n)) + multiset(After(After(q, n), m)) + multiset(q2 + First(After(q, n), m)) == multiset(q) + multiset(q2)
  {
    FirstAndAfter(q, n);
    FirstAndAfter(After(q, n), m);
  }

  // With two addresses: the first `val` wake, the next `val2` move, in order, nobody
  // is lost or doubled, and the count is that of both.
  lemma {:induction false} CmpRequeue(s: State, addr: int, val: int, addr2: int, val2: int) returns (u: State, r: State)
    requires ProperQueue(s, Queue(s, InFutex(addr))) && addr != addr2
    ensures u == WakeFutex(s, addr, val) && r == Requeue(u, addr, addr2, val2)
    ensures Woken(s, u, addr, NonNegative(val)) && Moved(u, r, addr, addr2, NonNegative(val2))
    ensures var (q, q2, n, m) := (Queue(s, InFutex(addr)), Queue(s, InFutex(addr2)), NonNegative(val), NonNegative(val2));
      && Queue(r, InFutex(addr)) == After(After(q, n), m) && Queue(r, InFutex(addr2)) == q2 + First(After(q, n), m)
      && multiset(First(q, n)) + multiset(Queue(r, InFutex(addr))) + multiset(Queue(r, InFutex(addr2))) == multiset(q) + multiset(q2)
      && WakeCount(s, addr, val) + RequeueCount(u, addr, addr2, val2) == |First(q, n)| + |First(After(q, n), m)|
  {
    WakeFutexWakes(s, addr, val);
    u := WakeFutex(s, addr, val);
    r := RequeueWaiters(u, addr, addr2, val2);
    Conserved(Queue(s, InFutex(addr)), Queue(s, InFutex(addr2)), NonNegative(val), NonNegative(val2));
  }

  lemma {:induction false} RequeueWaiters(u: State, addr: int, addr2: int, val: int) returns (r: State)
    requires ProperQueue(u, Queue(u, InFutex(addr))) && addr != addr2
    ensures r == Requeue(u, addr, addr2, val) && Moved(u, r, addr, addr2, NonNegative(val))
    ensures RequeueCount(u, addr, addr2, val) == |First(Queue(u, InFutex(addr)), NonNegative(val))|
  {
    RequeueInOrder(u, addr, addr2, NonNegative(val));
    r := Requeue(u, addr, addr2, NonNegative(val));
  }

  lemma {:induction false} RotatedCloses(q: seq<nat>, n: nat)
    requires q != []
    ensures Rotated(q, n) == q[n % |q|..] + q[..n % |q|] && multiset(Rotated(q, n)) == multiset(q)
  {
    RotatedWhole(q, n);
    var k := n % |q|;
    assert q == q[..k] + q[k..];
  }

  // Moving to the same address turns the queue.
  lemma {:induction false} RequeueSame(u: State, addr: int, val: int) returns (r: State)
    requires ProperQueue(u, Queue(u, InFutex(addr)))
    ensures r == Requeue(u, addr, addr, val) && multiset(Queue(r, InFutex(addr))) == multiset(Queue(u, InFutex(addr)))
    ensures var (q, m) := (Queue(u, InFutex(addr)), NonNegative(val));
      if q == [] then r == u else Turned(u, r, addr, m) && Queue(r, InFutex(addr)) == q[m % |q|..] + q[..m % |q|]
  {
    var m := NonNegative(val);
    r := Requeue(u, addr, addr, m);
    assert r == Requeue(u, addr, addr, val);
    if Queue(u, InFutex(addr)) == [] {
      RequeueNone(u, addr, m);
    } else {
      RequeueRotates(u, addr, m);
      RotatedCloses(Queue(u, InFutex(addr)), m);
    }
  }

  // With one address: the first `val` wake, the others change places in a circle, and
  // every turn counts.
  lemma {:induction false} CmpRequeueSame(s: State, addr: int, val: int, val2: int) returns (u: State, r: State)
    requires ProperQueue(s, Queue(s, InFutex(addr)))
    ensures u == WakeFutex(s, addr, val) && r == Requeue(u, addr, addr, val2) && Woken(s, u, addr, NonNegative(val))
    ensures var (q, n, m) := (Queue(s, InFutex(addr)), NonNegative(val), NonNegative(val2));
      var rest := After(q, n);
      && (if rest == [] then r == u else Turned(u, r, addr, m) && Queue(r, InFutex(addr)) == rest[m % |rest|..] + rest[..m % |rest|])
      && multiset(First(q, n)) + multiset(Queue(r, InFutex(addr))) == multiset(q)
      && WakeCount(s, addr, val) + RequeueCount(u, addr, addr, val2) == |First(q, n)| + (if rest == [] then 0 else m)
  {
    WakeFutexWakes(s, addr, val);
    u := WakeFutex(s, addr, val);
    FirstAndAfter(Queue(s, InFutex(addr)), NonNegative(val));
    r := RequeueSame(u, addr, val2);
  }

  lemma {:induction false} RequeueNone(s: State, addr: int, n: nat)
    requires Queue(s, InFutex(addr)) == []
    ensures Requeue(s, addr, addr, n) == s
    decreases n
  {
    if n > 0 {
      RequeueNone(s, addr, n - 1);
      assert Move(s, addr, addr) == s;
    }
  }

  // ---------------------------------------------------------------- over runs

  // The sender has its count, the woken have 0, and nobody else is told anything.
  predicate Replied(s: State, r: State, c: nat, woken: seq<nat>, count: int) {
    && |r.clients| == |s.clients|
    && forall d :: 0 <= d < |s.clients| ==>
         r.clients[d].inbox == if d == c then [FutexResult(count)] else if d in woken then [FutexResult(0)] else s.clients[d].inbox
  }

  ghost predicate OtherQueues(s: State, r: State, addr: int, addr2: int) {
    forall p {:trigger Queue(r, p)} :: p != InFutex(addr) && p != InFutex(addr2) ==> Queue(r, p) == Queue(s, p)
  }

  // The queue at an address, after a wake at another or the same.
  function QueueAfter(s: State, addr: int, n: nat, addr2: int): seq<nat> {
    if addr2 == addr then After(Queue(s, InFutex(addr)), n) else Queue(s, InFutex(addr2))
  }

  // What a call does to queues and inboxes.
  ghost predicate WaitEffect(s: State, r: State, c: nat, addr: int) {
    && Queue(r, InFutex(addr)) == Queue(s, InFutex(addr)) + [c] && OtherQueues(s, r, addr, addr)
    && |r.clients| == |s.clients| && forall d :: 0 <= d < |s.clients| ==> r.clients[d].inbox == s.clients[d].inbox
  }

  ghost predicate RefuseEffect(s: State, r: State, c: nat) {
    Replied(s, r, c, [], -EWOULDBLOCK) && forall p {:trigger Queue(r, p)} :: Queue(r, p) == Queue(s, p)
  }

  ghost predicate WakeEffect(s: State, r: State, c: nat, addr: int, n: nat) {
    var q := Queue(s, InFutex(addr));
    Replied(s, r, c, First(q, n), |First(q, n)|) && OtherQueues(s, r, addr, addr) && Queue(r, InFutex(addr)) == After(q, n)
  }

  ghost predicate WakeOpEffect(s: State, r: State, c: nat, addr: int, n: nat, addr2: int, m: nat) {
    var (q, q2) := (Queue(s, InFutex(addr)), QueueAfter(s, addr, n, addr2));
    && Replied(s, r, c, First(q, n) + First(q2, m), |First(q, n)| + |First(q2, m)|) && OtherQueues(s, r, addr, addr2)
    && (addr != addr2 ==> Queue(r, InFutex(addr)) == After(q, n)) && Queue(r, InFutex(addr2)) == After(q2, m)
  }

  ghost predicate RequeueEffect(s: State, r: State, c: nat, addr: int, n: nat, addr2: int, m: nat) {
    var q := Queue(s, InFutex(addr));
    var rest := After(q, n);
    && Replied(s, r, c, First(q, n), |First(q, n)| + |First(rest, m)|) && OtherQueues(s, r, addr, addr2)
    && Queue(r, InFutex(addr)) == After(rest, m) && Queue(r, InFutex(addr2)) == Queue(s, InFutex(addr2)) + First(rest, m)
  }

  ghost predicate TurnEffect(s: State, r: State, c: nat, addr: int, n: nat, m: nat) {
    var q := Queue(s, InFutex(addr));
    var rest := After(q, n);
    && Replied(s, r, c, First(q, n), |First(q, n)| + if rest == [] then 0 else m) && OtherQueues(s, r, addr, addr)
    && Queue(r, InFutex(addr)) == if rest == [] then [] else rest[m % |rest|..] + rest[..m % |rest|]
  }

  ghost predicate FutexEffect(s: State, r: State, c: nat, call: Call) {
    match call
    case FutexWait(addr, equal) => if equal then WaitEffect(s, r, c, addr) else RefuseEffect(s, r, c)
    case FutexWake(addr, val) => WakeEffect(s, r, c, addr, NonNegative(val))
    case FutexWakeOp(addr, val, addr2, val2, condition) =>
      if condition then WakeOpEffect(s, r, c, addr, NonNegative(val), addr2, NonNegative(val2))
      else WakeEffect(s, r, c, addr, NonNegative(val))
    case FutexCmpRequeue(addr, val, addr2, val2, equal) =>
      if !equal then RefuseEffect(s, r, c)
      else if addr != addr2 then RequeueEffect(s, r, c, addr, NonNegative(val), addr2, NonNegative(val2))
      else TurnEffect(s, r, c, addr, NonNegative(val), NonNegative(val2))
    case _ => false
  }

  // What the sender is answered with comes on top of this.
  predicate Half(s: State, v: State, woken: seq<nat>) {
    && |v.clients| == |s.clients|
    && forall d :: 0 <= d < |s.clients| ==>
         v.clients[d].inbox == if d in woken then s.clients[d].inbox + [FutexResult(0)] else s.clients[d].inbox
  }

  // Before a request is taken up: the sender has no reply and is in no queue, waiters have no reply.
  lemma {:induction false} BeforeFutex(s: State, c: nat, addr: int) returns (a: State)
    requires Global(s) && c < |s.clients| && s.clients[c].phase.Sent?
    ensures a == Accept(s, c) && (forall p {:trigger Queue(a, p)} :: Queue(a, p) == Queue(s, p)) && |a.clients| == |s.clients|
    ensures forall d :: 0 <= d < |s.clients| ==> a.clients[d].inbox == s.clients[d].inbox
    ensures ProperQueue(a, Queue(a, InFutex(addr))) && c !in Queue(s, InFutex(addr)) && s.clients[c].inbox == []
    ensures forall d :: d in Queue(s, InFutex(addr)) ==> d < |s.clients| && s.clients[d].inbox == []
  {
    a := Accept(s, c);
    SameQueues(s, a);
    QueuesProper(s, InFutex(addr), {});
    assert CoreOk(s.clients, QueuesOf(s), c, {});
    NotQueued(s, c, InFutex(addr));
    forall d | d in Queue(s, InFutex(addr)) ensures d < |s.clients| && s.clients[d].inbox == [] {
      assert PlaceOk(s.clients, InFutex(addr), QueuesOf(s)(InFutex(addr)));
      assert CoreOk(s.clients, QueuesOf(s), d, {});
    }
  }

  // The last reply.
  lemma {:induction false} AnswerReplies(s: State, v: State, c: nat, woken: seq<nat>, count: int) returns (r: State)
    requires c < |s.clients| && s.clients[c].inbox == [] && c !in woken && Half(s, v, woken)
    requires forall d :: d in woken ==> d < |s.clients| && s.clients[d].inbox == []
    ensures r == Answer(v, c, count) && Replied(s, r, c, woken, count)
    ensures forall p {:trigger Queue(r, p)} :: Queue(r, p) == Queue(v, p)
  {
    r := Answer(v, c, count);
  }

  // FUTEX_WAKE
  lemma {:induction false} ServedWake(s: State, c: nat, addr: int, val: int) returns (r: State)
    requires Global(s) && c < |s.clients| && s.clients[c].phase.Sent?
    ensures r == DoFutex(Accept(s, c), c, FutexWake(addr, val))
    ensures WakeEffect(s, r, c, addr, NonNegative(val))
  {
    var a := BeforeFutex(s, c, addr);
    WakeFutexWakes(a, addr, val);
    r := AnswerReplies(s, WakeFutex(a, addr, val), c, First(Queue(s, InFutex(addr)), NonNegative(val)), WakeCount(a, addr, val));
  }

  // A second wake, at another or the same address.
  lemma {:induction false} WakeAgain(s: State, c: nat, addr: int, val: int, addr2: int, val2: int) returns (v: State, count: int)
    requires Global(s) && c < |s.clients| && s.clients[c].phase.Sent?
    ensures var u := WakeFutex(Accept(s, c), addr, val);
      v == WakeFutex(u, addr2, val2) && count == WakeCount(Accept(s, c), addr, val) + WakeCount(u, addr2, val2)
    ensures var (n, m) := (NonNegative(val), NonNegative(val2));
      var (w, w2) := (First(Queue(s, InFutex(addr)), n), First(QueueAfter(s, addr, n, addr2), m));
      && count == |w| + |w2| && Half(s, v, w + w2) && OtherQueues(s, v, addr, addr2)
      && (addr != addr2 ==> Queue(v, InFutex(addr)) == After(Queue(s, InFutex(addr)), n))
      && Queue(v, InFutex(addr2)) == After(QueueAfter(s, addr, n, addr2), m)
  {
    var a := BeforeFutex(s, c, addr);
    AcceptKeepsInv(s, c);
    WakeFutexWakes(a, addr, val);
    WakeFutexKeepsInv(a, addr, val, {c});
    var u := WakeFutex(a, addr, val);
    var q2 := Queue(u, InFutex(addr2));
    QueuesProper(u, InFutex(addr2), {c});
    WakeFutexWakes(u, addr2, val2);
    v, count := WakeFutex(u, addr2, val2), WakeCount(a, addr, val) + WakeCount(u, addr2, val2);
    forall d | d in q2 ensures d < |u.clients| && u.clients[d].inbox == [] {
      WaiterUntold(u, InFutex(addr2), d, {c});
    }
    forall d | 0 <= d < |s.clients| && d in First(q2, NonNegative(val2)) ensures d !in First(Queue(s, InFutex(addr)), NonNegative(val)) {
      assert d in q2;
      assert u.clients[d].inbox == InboxAfter(a, Queue(a, InFutex(addr)), NonNegative(val), d);
    }
    forall d | 0 <= d < |s.clients|
      ensures v.clients[d].inbox == InboxAfter(u, q2, NonNegative(val2), d)
      ensures u.clients[d].inbox == InboxAfter(a, Queue(s, InFutex(addr)), NonNegative(val), d) {}
  }

  // Who waits has no reply.
  lemma {:induction false} WaiterUntold(s: State, p: Place, d: nat, debt: set<nat>)
    requires Inv(s, debt) && d in Queue(s, p)
    ensures d < |s.clients| && s.clients[d].inbox == []
  {
    assert PlaceOk(s.clients, p, QueuesOf(s)(p));
    assert CoreOk(s.clients, QueuesOf(s), d, debt);
  }

  // FUTEX_WAKE_OP: the second address is woken if the comparison holds.
  lemma {:induction false} ServedWakeOp(s: State, c: nat, addr: int, val: int, addr2: int, val2: int) returns (r: State)
    requires Global(s) && c < |s.clients| && s.clients[c].phase.Sent?
    ensures r == DoFutex(Accept(s, c), c, FutexWakeOp(addr, val, addr2, val2, true))
    ensures WakeOpEffect(s, r, c, addr, NonNegative(val), addr2, NonNegative(val2))
  {
    var v, count := WakeAgain(s, c, addr, val, addr2, val2);
    r := WakeOpAnswered(s, c, addr, NonNegative(val), addr2, NonNegative(val2), v, count);
    WakeOpHandled(Accept(s, c), c, addr, val, addr2, val2, v, count, r);
  }

  lemma {:induction false} WakeOpAnswered(s: State, c: nat, addr: int, n: nat, addr2: int, m: nat, v: State, count: int) returns (r: State)
    requires Global(s) && c < |s.clients| && s.clients[c].phase.Sent? && OtherQueues(s, v, addr, addr2)
    requires var (w, w2) := (First(Queue(s, InFutex(addr)), n), First(QueueAfter(s, addr, n, addr2), m));
      count == |w| + |w2| && Half(s, v, w + w2)
    requires addr != addr2 ==> Queue(v, InFutex(addr)) == After(Queue(s, InFutex(addr)), n)
    requires Queue(v, InFutex(addr2)) == After(QueueAfter(s, addr, n, addr2), m)
    ensures r == Answer(v, c, count) && WakeOpEffect(s, r, c, addr, n, addr2, m)
  {
    WokenUntold(s, c, addr, n, addr2, m);
    r := AnswerReplies(s, v, c, First(Queue(s, InFutex(addr)), n) + First(QueueAfter(s, addr, n, addr2), m), count);
  }

  // The handlers, put together again.
  lemma {:induction false} WakeOpHandled(a: State, c: nat, addr: int, val: int, addr2: int, val2: int, v: State, count: int, r: State)
    requires c < |a.clients| && v == WakeFutex(WakeFutex(a, addr, val), addr2, val2) && r == Answer(v, c, count)
    requires count == WakeCount(a, addr, val) + WakeCount(WakeFutex(a, addr, val), addr2, val2)
    ensures r == DoFutex(a, c, FutexWakeOp(addr, val, addr2, val2, true))
  {}

  lemma {:induction false} CmpRequeueHandled(a: State, c: nat, addr: int, val: int, addr2: int, val2: int,
                                             u: State, v: State, count: int, r: State)
    requires c < |a.clients| && u == WakeFutex(a, addr, val) && v == Requeue(u, addr, addr2, val2) && r == Answer(v, c, count)
    requires count == WakeCount(a, addr, val) + RequeueCount(u, addr, addr2, val2)
    ensures r == DoFutex(a, c, FutexCmpRequeue(addr, val, addr2, val2, true))
  {}

  lemma {:induction false} FirstUntold(s: State, c: nat, addr: int, n: nat)
    requires Global(s) && c < |s.clients| && s.clients[c].phase.Sent?
    ensures s.clients[c].inbox == [] && c !in First(Queue(s, InFutex(addr)), n)
    ensures forall d :: d in First(Queue(s, InFutex(addr)), n) ==> d < |s.clients| && s.clients[d].inbox == []
  {
    var _ := BeforeFutex(s, c, addr);
  }

  // The sender is not among those that wake, and those have no reply yet.
  lemma {:induction false} WokenUntold(s: State, c: nat, addr: int, n: nat, addr2: int, m: nat)
    requires Global(s) && c < |s.clients| && s.clients[c].phase.Sent?
    ensures var woken := First(Queue(s, InFutex(addr)), n) + First(QueueAfter(s, addr, n, addr2), m);
      && s.clients[c].inbox == [] && c !in woken
      && forall d :: d in woken ==> d < |s.clients| && s.clients[d].inbox == []
  {
    var _ := BeforeFutex(s, c, addr);
    var _ := BeforeFutex(s, c, addr2);
  }

  lemma {:induction false} HalfMoved(s: State, a: State, u: State, v: State, addr: int, n: nat)
    requires Woken(a, u, addr, n) && |a.clients| == |s.clients| == |v.clients| && Queue(a, InFutex(addr)) == Queue(s, InFutex(addr))
    requires forall d :: 0 <= d < |s.clients| ==> a.clients[d].inbox == s.clients[d].inbox
    requires forall d :: 0 <= d < |s.clients| ==> v.clients[d].inbox == u.clients[d].inbox
    ensures Half(s, v, First(Queue(s, InFutex(addr)), n))
  {
    var q := Queue(s, InFutex(addr));
    forall d | 0 <= d < |s.clients|
      ensures v.clients[d].inbox == if d in First(q, n) then s.clients[d].inbox + [FutexResult(0)] else s.clients[d].inbox {
      assert u.clients[d].inbox == InboxAfter(a, q, n, d);
    }
  }

  lemma {:induction false} MovesBetween(s: State, c: nat, addr: int, val: int, addr2: int, val2: int) returns (u: State, v: State, count: int)
    requires Global(s) && c < |s.clients| && s.clients[c].phase.Sent? && addr != addr2
    ensures u == WakeFutex(Accept(s, c), addr, val) && v == Requeue(u, addr, addr2, val2) && OtherQueues(s, v, addr, addr2)
    ensures count == WakeCount(Accept(s, c), addr, val) + RequeueCount(u, addr, addr2, val2)
    ensures var (q, n, m) := (Queue(s, InFutex(addr)), NonNegative(val), NonNegative(val2));
      var rest := After(q, n);
      && Half(s, v, First(q, n))
      && count == |First(q, n)| + |First(rest, m)|
      && Queue(v, InFutex(addr)) == After(rest, m) && Queue(v, InFutex(addr2)) == Queue(s, InFutex(addr2)) + First(rest, m)
  {
    var a := BeforeFutex(s, c, addr);
    u, v := CmpRequeue(a, addr, val, addr2, val2);
    count := WakeCount(a, addr, val) + RequeueCount(u, addr, addr2, val2);
    HalfMoved(s, a, u, v, addr, NonNegative(val));
  }

  lemma {:induction false} MovesRound(s: State, c: nat, addr: int, val: int, val2: int) returns (u: State, v: State, count: int)
    requires Global(s) && c < |s.clients| && s.clients[c].phase.Sent?
    ensures u == WakeFutex(Accept(s, c), addr, val) && v == Requeue(u, addr, addr, val2) && OtherQueues(s, v, addr, addr)
    ensures count == WakeCount(Accept(s, c), addr, val) + RequeueCount(u, addr, addr, val2)
    ensures var (q, n, m) := (Queue(s, InFutex(addr)), NonNegative(val), NonNegative(val2));
      var rest := After(q, n);
      && Half(s, v, First(q, n))
      && count == |First(q, n)| + (if rest == [] then 0 else m)
      && Queue(v, InFutex(addr)) == if rest == [] then [] else rest[m % |rest|..] + rest[..m % |rest|]
  {
    var a := BeforeFutex(s, c, addr);
    u, v := CmpRequeueSame(a, addr, val, val2);
    count := WakeCount(a, addr, val) + RequeueCount(u, addr, addr, val2);
    HalfMoved(s, a, u, v, addr, NonNegative(val));
  }

  // FUTEX_CMP_REQUEUE with the value expected, between two addresses
  lemma {:induction false} ServedCmpRequeue(s: State, c: nat, addr: int, val: int, addr2: int, val2: int) returns (r: State)
    requires Global(s) && c < |s.clients| && s.clients[c].phase.Sent? && addr != addr2
    ensures r == DoFutex(Accept(s, c), c, FutexCmpRequeue(addr, val, addr2, val2, true))
    ensures RequeueEffect(s, r, c, addr, NonNegative(val), addr2, NonNegative(val2))
  {
    var u, v, count := MovesBetween(s, c, addr, val, addr2, val2);
    r := RequeueAnswered(s, c, addr, NonNegative(val), addr2, NonNegative(val2), v, count);
    CmpRequeueHandled(Accept(s, c), c, addr, val, addr2, val2, u, v, count, r);
  }

  // The first n woke, and the sender is answered.
  lemma {:induction false} FirstAnswered(s: State, c: nat, addr: int, n: nat, v: State, count: int) returns (r: State)
    requires Global(s) && c < |s.clients| && s.clients[c].phase.Sent? && Half(s, v, First(Queue(s, InFutex(addr)), n))
    ensures r == Answer(v, c, count) && Replied(s, r, c, First(Queue(s, InFutex(addr)), n), count)
    ensures forall p {:trigger Queue(r, p)} :: Queue(r, p) == Queue(v, p)
  {
    FirstUntold(s, c, addr, n);
    r := AnswerReplies(s, v, c, First(Queue(s, InFutex(addr)), n), count);
  }

  lemma {:induction false} RequeueAnswered(s: State, c: nat, addr: int, n: nat, addr2: int, m: nat, v: State, count: int) returns (r: State)
    requires Global(s) && c < |s.clients| && s.clients[c].phase.Sent? && OtherQueues(s, v, addr, addr2)
    requires var q := Queue(s, InFutex(addr));
      var rest := After(q, n);
      && Half(s, v, First(q, n)) && count == |First(q, n)| + |First(rest, m)|
      && Queue(v, InFutex(addr)) == After(rest, m) && Queue(v, InFutex(addr2)) == Queue(s, InFutex(addr2)) + First(rest, m)
    ensures r == Answer(v, c, count) && RequeueEffect(s, r, c, addr, n, addr2, m)
  {
    r := FirstAnswered(s, c, addr, n, v, count);
  }

  lemma {:induction false} TurnAnswered(s: State, c: nat, addr: int, n: nat, m: nat, v: State, count: int) returns (r: State)
    requires Global(s) && c < |s.clients| && s.clients[c].phase.Sent? && OtherQueues(s, v, addr, addr)
    requires var q := Queue(s, InFutex(addr));
      var rest := After(q, n);
      && Half(s, v, First(q, n)) && count == |First(q, n)| + (if rest == [] then 0 else m)
      && Queue(v, InFutex(addr)) == if rest == [] then [] else rest[m % |rest|..] + rest[..m % |rest|]
    ensures r == Answer(v, c, count) && TurnEffect(s, r, c, addr, n, m)
  {
    r := FirstAnswered(s, c, addr, n, v, count);
  }

  // FUTEX_CMP_REQUEUE with the value expected, at one address
  lemma {:induction false} ServedCmpRequeueSame(s: State, c: nat, addr: int, val: int, val2: int) returns (r: State)
    requires Global(s) && c < |s.clients| && s.clients[c].phase.Sent?
    ensures r == DoFutex(Accept(s, c), c, FutexCmpRequeue(addr, val, addr, val2, true))
    ensures TurnEffect(s, r, c, addr, NonNegative(val), NonNegative(val2))
  {
    var u, v, count := MovesRound(s, c, addr, val, val2);
    r := TurnAnswered(s, c, addr, NonNegative(val), NonNegative(val2), v, count);
    CmpRequeueHandled(Accept(s, c), c, addr, val, addr, val2, u, v, count, r);
  }

  // A comparison that fails
  lemma {:induction false} ServedRefusal(s: State, c: nat, call: Call) returns (r: State)
    requires Global(s) && c < |s.clients| && s.clients[c].phase.Sent?
    requires (call.FutexWait? || call.FutexCmpRequeue?) && !call.equal
    ensures r == DoFutex(Accept(s, c), c, call) && RefuseEffect(s, r, c)
  {
    var a := BeforeFutex(s, c, 0);
    r := AnswerReplies(s, a, c, [], -EWOULDBLOCK);
  }

  // FUTEX_WAIT with the value expected
  lemma {:induction false} ServedWait(s: State, c: nat, addr: int) returns (r: State)
    requires Global(s) && c < |s.clients| && s.clients[c].phase.Sent?
    ensures r == DoFutex(Accept(s, c), c, FutexWait(addr, true)) && WaitEffect(s, r, c, addr)
  {
    var a := BeforeFutex(s, c, addr);
    r := Park(a, c, InFutex(addr));
  }

  lemma {:induction false} ServedFutex(s: State, c: nat, call: Call) returns (r: State)
    requires Global(s) && c < |s.clients| && s.clients[c].phase.Sent? && IsFutex(call)
    ensures r == DoFutex(Accept(s, c), c, call) && FutexEffect(s, r, c, call)
  {
    match call {
      case FutexWait(addr, equal) => {
        if equal {
          r := ServedWait(s, c, addr);
        } else {
          r := ServedRefusal(s, c, call);
        }
      }
      case FutexWake(addr, val) => r := ServedWake(s, c, addr, val);
      case FutexWakeOp(addr, val, addr2, val2, condition) => {
        if condition {
          r := ServedWakeOp(s, c, addr, val, addr2, val2);
        } else {
          r := ServedWake(s, c, addr, val);
        }
      }
      case FutexCmpRequeue(addr, val, addr2, val2, equal) => {
        if !equal {
          r := ServedRefusal(s, c, call);
        } else if addr != addr2 {
          r := ServedCmpRequeue(s, c, addr, val, addr2, val2);
        } else {
          r := ServedCmpRequeueSame(s, c, addr, val, val2);
        }
      }
    }
  }

  // In every run, a futex call that is taken up wakes, moves and answers exactly so.
  lemma {:induction false} FutexServed(states: seq<State>, steps: seq<Step>, n: nat, i: nat, c: nat, call: Call)
    requires Run(states, steps) && Init(states[0], n) && i < |steps| && steps[i] == Serve(c)
    requires c < |states[i].clients| && states[i].clients[c].phase == Sent(call) && IsFutex(call)
    ensures FutexEffect(states[i], states[i + 1], c, call)
  {
    RunKeepsGlobal(states, steps, n, i);
    assert Taken(states, steps, i);
    var r := ServedFutex(states[i], c, call);
    assert r == states[i + 1];
  }
}
