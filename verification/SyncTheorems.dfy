/**
 The guarantees of the MCP's synchronisation services, over every run: threads
 start, compute, send requests, are served in any order, and receive replies.
 */
module SyncTheorems {
  import opened SyncModel
  import opened SyncHandlers
  import opened SyncProofs
  import opened SyncOwners
  import opened SyncRuns

  // ---------------------------------------------------------------- runs

  datatype Step =
    | Begin(core: nat) | Tick(core: nat, cycles: nat) | Request(core: nat, call: Call) | Serve(core: nat) | Receive(core: nat)

  // The advance of a client's clock by a reply: to the time in it, if that is later.
  function Advanced(clock: nat, r: Reply): nat {
    if r.Timed? && r.time > clock then r.time else clock
  }

  function Requested(k: Client, call: Call): Client {
    k.(phase := Sent(call), held := if GivesUp(call).Some? then k.held - {GivesUp(call).value} else k.held)
  }

  function Received(k: Client): Client
    requires k.phase.Blocked? && k.inbox != []
  {
    var grant := Grant(k.phase.call);
    k.(phase := Computing, inbox := k.inbox[1..], clock := Advanced(k.clock, k.inbox[0]),
       held := if grant.Some? then k.held + {grant.value} else k.held)
  }

  ghost predicate Enabled(s: State, step: Step) {
    && step.core < |s.clients|
    && var k := s.clients[step.core];
       match step
       case Begin(_) => k.phase.Gone?
       case Tick(_, _) => k.phase.Computing?
       case Request(_, _) => k.phase.Computing?
       case Serve(c) => k.phase.Sent? && Ready(s) && Allowed(s, c, k.phase.call)
       case Receive(_) => k.phase.Blocked? && k.inbox != []
  }

  function SetClient(s: State, c: nat, k: Client): State
    requires c < |s.clients|
  {
    s.(clients := s.clients[c := k])
  }

  ghost function Do(s: State, step: Step): State
    requires Enabled(s, step)
  {
    var (c, k) := (step.core, s.clients[step.core]);
    match step
    case Begin(_) => SetClient(s, c, k.(phase := Computing, status := Running))
    case Tick(_, n) => SetClient(s, c, k.(clock := k.clock + n))
    case Request(_, call) => SetClient(s, c, Requested(k, call))
    case Serve(_) => Handle(s, c)
    case Receive(_) => SetClient(s, c, Received(k))
  }

  // n cores; the main thread is on core 0, the others have no thread yet.
  predicate Init(s: State, n: nat) {
    && |s.clients| == n && s.mutexes == [] && s.conds == [] && s.barriers == [] && s.futexes == map[]
    && s.joiners == seq(n, _ => [])
    && forall c :: 0 <= c < n ==>
         s.clients[c] == Client(if c == 0 then Running else Idle, if c == 0 then Computing else Gone, [], 0, None, {})
  }

  ghost predicate Run(states: seq<State>, steps: seq<Step>) {
    && |states| == |steps| + 1
    && forall i :: 0 <= i < |steps| ==> Taken(states, steps, i)
  }

  ghost predicate Taken(states: seq<State>, steps: seq<Step>, i: nat)
    requires i < |steps| && |states| == |steps| + 1
  {
    Enabled(states[i], steps[i]) && states[i + 1] == Do(states[i], steps[i])
  }

  // ---------------------------------------------------------------- one place, one reply

  ghost predicate Global(s: State) {
    Inv(s, {}) && Shape(s)
  }

  lemma {:induction false} GlobalReady(s: State)
    requires Global(s)
    ensures Ready(s)
  {
    InvQueued(s, {});
  }

  lemma {:induction false} ClientStep(s: State, c: nat, k: Client)
    requires Global(s) && c < |s.clients| && s.clients[c].place.None? && ClientOk(k, true, false)
    requires k.place.None?
    ensures Global(SetClient(s, c, k))
  {
    ClientKeepsInv(s, c, k, {}, {});
    SameShape(s, SetClient(s, c, k));
  }

  lemma {:induction false} StepKeepsGlobal(s: State, step: Step)
    requires Global(s) && Enabled(s, step)
    ensures Global(Do(s, step))
  {
    var (c, k) := (step.core, s.clients[step.core]);
    assert CoreOk(s.clients, QueuesOf(s), c, {});
    match step
    case Begin(_) => ClientStep(s, c, k.(phase := Computing, status := Running));
    case Tick(_, n) => ClientStep(s, c, k.(clock := k.clock + n));
    case Request(_, call) => ClientStep(s, c, Requested(k, call));
    case Serve(_) => {
      HandleKeepsInv(s, c);
      HandleKeepsShape(s, c);
    }
    case Receive(_) => ClientStep(s, c, Received(k));
  }

  lemma {:induction false} RunKeepsGlobal(states: seq<State>, steps: seq<Step>, n: nat, i: nat)
    requires Run(states, steps) && Init(states[0], n) && i < |states|
    ensures Global(states[i])
  {
    if i == 0 {
      var s := states[0];
      forall p ensures PlaceOk(s.clients, p, QueuesOf(s)(p)) {}
      forall c | 0 <= c < n ensures CoreOk(s.clients, QueuesOf(s), c, {}) {}
    } else {
      RunKeepsGlobal(states, steps, n, i - 1);
      assert Taken(states, steps, i - 1);
      StepKeepsGlobal(states[i - 1], steps[i - 1]);
    }
  }

  // In every state of every run, a core is stalled if and only if it waits in a
  // queue, and then in only one, and once.
  lemma {:induction false} StalledMeansQueued(states: seq<State>, steps: seq<Step>, n: nat, i: nat, c: nat)
    requires Run(states, steps) && Init(states[0], n) && i < |states| && c < |states[i].clients|
    ensures states[i].clients[c].status.Stalled? <==> exists p :: c in Queue(states[i], p)
    ensures forall p, q :: c in Queue(states[i], p) && c in Queue(states[i], q) ==> p == q
    ensures forall p :: NoTwice(Queue(states[i], p))
  {
    RunKeepsGlobal(states, steps, n, i);
    var s := states[i];
    assert CoreOk(s.clients, QueuesOf(s), c, {});
    forall p ensures NoTwice(Queue(s, p)) && (c in Queue(s, p) ==> s.clients[c].place == Some(p)) {
      assert PlaceOk(s.clients, p, QueuesOf(s)(p));
    }
    if s.clients[c].status.Stalled? {
      assert c in Queue(s, s.clients[c].place.value);
    }
  }

  // In every state of every run, a blocked core waits in a queue with no reply on
  // its way, or is in none and has exactly one, of the kind that its call checks
  // for; all others have neither.
  lemma {:induction false} OneReply(states: seq<State>, steps: seq<Step>, n: nat, i: nat, c: nat)
    requires Run(states, steps) && Init(states[0], n) && i < |states| && c < |states[i].clients|
    ensures var k := states[i].clients[c];
      && (k.phase.Blocked? && k.status.Stalled? ==> k.inbox == [])
      && (k.phase.Blocked? && !k.status.Stalled? ==> |k.inbox| == 1 && Fits(k.phase.call, k.inbox[0]))
      && (!k.phase.Blocked? ==> k.inbox == [] && !k.status.Stalled?)
  {
    RunKeepsGlobal(states, steps, n, i);
    assert CoreOk(states[i].clients, QueuesOf(states[i]), c, {});
  }

  // ---------------------------------------------------------------- mutual exclusion

  // If a signal is served, all its waiters have the same mutex.
  predicate Proper(s: State, step: Step) {
    step.Serve? && step.core < |s.clients| && s.clients[step.core].phase.Sent? ==> Disciplined(s, s.clients[step.core].phase.call)
  }

  lemma {:induction false} StepKeepsOwn(s: State, step: Step)
    requires Global(s) && OwnInv(s) && Enabled(s, step) && Proper(s, step)
    ensures OwnInv(Do(s, step))
  {
    var (c, k) := (step.core, s.clients[step.core]);
    match step
    case Begin(_) => ClientOwn(s, c, k.(phase := Computing, status := Running));
    case Tick(_, n) => ClientOwn(s, c, k.(clock := k.clock + n));
    case Request(_, call) => ClientOwn(s, c, Requested(k, call));
    case Serve(_) => HandleKeepsOwn(s, c);
    case Receive(_) => ReceiveOwn(s, c);
  }

  // The mutex granted becomes one of those held.
  lemma {:induction false} ReceiveOwn(s: State, c: nat)
    requires Global(s) && OwnInv(s) && c < |s.clients| && s.clients[c].phase.Blocked? && s.clients[c].inbox != []
    ensures OwnInv(SetClient(s, c, Received(s.clients[c])))
  {
    var (k, r) := (s.clients[c], SetClient(s, c, Received(s.clients[c])));
    assert CoreOk(s.clients, QueuesOf(s), c, {});
    forall d | 0 <= d < |r.clients| ensures Owns(r, d) && GaveUp(r.clients[d]) {
      assert Owns(s, d) && GaveUp(s.clients[d]);
      forall m: nat | Holds(r.clients[d], m) ensures m < |r.mutexes| && r.mutexes[m].owner == Some(d) {
        assert Holds(s.clients[d], m);
      }
    }
    forall m | 0 <= m < |r.mutexes| ensures AllWant(r, r.mutexes[m].waiting, m) {
      assert AllWant(s, s.mutexes[m].waiting, m);
      NotQueued(s, c, InMutex(m));
    }
    forall j | 0 <= j < |r.conds| ensures Paired(r, r.conds[j]) {
      assert Paired(s, s.conds[j]);
      NotQueued(s, c, InCond(j));
    }
  }

  lemma {:induction false} NotQueued(s: State, c: nat, p: Place)
    requires Inv(s, {}) && c < |s.clients| && s.clients[c].place.None?
    ensures c !in Queue(s, p)
  {
    assert PlaceOk(s.clients, p, QueuesOf(s)(p));
  }

  lemma {:induction false} RunKeepsOwn(states: seq<State>, steps: seq<Step>, n: nat, i: nat)
    requires Run(states, steps) && Init(states[0], n) && i < |states|
    requires forall j :: 0 <= j < i ==> Proper(states[j], steps[j])
    ensures OwnInv(states[i])
  {
    if i > 0 {
      RunKeepsOwn(states, steps, n, i - 1);
      RunKeepsGlobal(states, steps, n, i - 1);
      assert Taken(states, steps, i - 1) && Proper(states[i - 1], steps[i - 1]);
      StepKeepsOwn(states[i - 1], steps[i - 1]);
    }
  }

  // Replies do not touch the record of the waiters.
  lemma {:induction false} SignalRecord(s: State, c: nat, k: nat, time: nat) returns (r: State, told: State)
    requires c < |s.clients| && k < |s.conds| && Shape(s) && s.conds[k].waiting != []
    ensures CanWake(s, k) && r == WakeOne(s, k) && told == DoSignal(s, c, k, time)
    ensures told.conds == r.conds && told.mutexes == r.mutexes && SamePhases(r, told)
  {
    assert CondOk(s.conds[k], |s.clients|, |s.mutexes|);
    r, told := WakeOne(s, k), DoSignal(s, c, k, time);
  }

  lemma {:induction false} SamePaired(r: State, told: State, cond: Cond)
    requires told.mutexes == r.mutexes && SamePhases(r, told) && Paired(told, cond)
    ensures Paired(r, cond)
  {
    forall i | 0 <= i < |cond.muxes| ensures Wants(r, cond.waiting[i], cond.muxes[i]) {
      assert Wants(told, cond.waiting[i], cond.muxes[i]);
    }
  }

  // A signal with a waiter keeps owners and holders in agreement if and only if all
  // waiters have the same mutex.
  lemma {:induction false} SignalKeepsOwn(s: State, c: nat, k: nat)
    requires Global(s) && OwnInv(s) && Ready(s) && c < |s.clients| && s.clients[c].phase == Sent(CondSignal(k))
    requires k < |s.conds| && s.conds[k].waiting != []
    ensures OwnInv(Handle(s, c)) <==> OneMutex(s.conds[k].muxes)
  {
    if OneMutex(s.conds[k].muxes) {
      HandleKeepsOwn(s, c);
    } else if OwnInv(Handle(s, c)) {
      var a := Accept(s, c);
      AcceptOwn(s, c);
      assert Paired(a, a.conds[k]);
      var r, told := SignalRecord(a, c, k, s.clients[c].clock);
      SignalKeepsMutexes(a, k);
      assert told == Handle(s, c) && Paired(told, told.conds[k]);
      SamePaired(r, told, r.conds[k]);
      assert false;
    }
  }

  // No mutex is ever granted to two threads.
  lemma {:induction false} MutualExclusion(states: seq<State>, steps: seq<Step>, n: nat, i: nat, c: nat, d: nat, m: nat)
    requires Run(states, steps) && Init(states[0], n) && i < |states| && c < |states[i].clients| && d < |states[i].clients|
    requires forall j :: 0 <= j < i ==> Proper(states[j], steps[j])
    requires Holds(states[i].clients[c], m) && Holds(states[i].clients[d], m)
    ensures c == d && m < |states[i].mutexes| && states[i].mutexes[m].owner == Some(c)
  {
    RunKeepsOwn(states, steps, n, i);
    OneHolder(states[i], c, d, m);
    assert Owns(states[i], c);
  }
}
