/**
 Runs from the start that show what the MCP does not keep: a mutex with two
 holders, and a barrier whose release goes beyond its flags.
 */
module SyncWitnesses {
  import opened SyncModel
  import opened SyncHandlers
  import opened SyncProofs
  import opened SyncOwners
  import opened SyncRuns
  import opened SyncTheorems

  // ---------------------------------------------------------------- reachable states

  // Some run of n cores ends in s.
  ghost predicate Reached(n: nat, s: State) {
    exists states: seq<State>, steps: seq<Step> :: Run(states, steps) && Init(states[0], n) && states[|steps|] == s
  }

  // What a step needs besides what holds in every run.
  predicate Can(s: State, step: Step) {
    && step.core < |s.clients|
    && var k := s.clients[step.core];
       match step
       case Begin(_) => k.phase.Gone?
       case Tick(_, _) => k.phase.Computing?
       case Request(_, _) => k.phase.Computing?
       case Serve(c) => k.phase.Sent? && Allowed(s, c, k.phase.call)
       case Receive(_) => k.phase.Blocked? && k.inbox != []
  }

  lemma {:induction false} Take(n: nat, s: State, step: Step)
    requires Reached(n, s) && Can(s, step)
    ensures Enabled(s, step) && Reached(n, Do(s, step))
  {
    var states: seq<State>, steps: seq<Step> :| Run(states, steps) && Init(states[0], n) && states[|steps|] == s;
    RunKeepsGlobal(states, steps, n, |steps|);
    GlobalReady(s);
    RunExtends(states, steps, step);
  }

  lemma {:induction false} RunExtends(states: seq<State>, steps: seq<Step>, step: Step)
    requires Run(states, steps) && Enabled(states[|steps|], step)
    ensures Run(states + [Do(states[|steps|], step)], steps + [step])
  {
    var (states', steps') := (states + [Do(states[|steps|], step)], steps + [step]);
    forall t | 0 <= t < |steps'| ensures Taken(states', steps', t) {
      if t < |steps| {
        assert Taken(states, steps, t);
      }
    }
  }

  lemma {:induction false} FromStart(s: State, n: nat)
    requires Init(s, n)
    ensures Reached(n, s)
  {
    var (states, steps: seq<Step>) := ([s], []);
    assert Run(states, steps) && states[|steps|] == s;
  }

  // ---------------------------------------------------------------- calls

  // A core that computes asks, and the MCP takes the request up.
  lemma {:induction false} Ask(n: nat, s: State, c: nat, call: Call) returns (a: State)
    requires Reached(n, s) && c < |s.clients| && s.clients[c].phase.Computing? && Allowed(s, c, call)
    ensures a == SetClient(s, c, Requested(s.clients[c], call)) && Ready(a) && Allowed(a, c, call)
    ensures Reached(n, Handle(a, c))
  {
    Take(n, s, Request(c, call));
    a := SetClient(s, c, Requested(s.clients[c], call));
    Take(n, a, Serve(c));
  }

  // A core receives its reply.
  lemma {:induction false} Get(n: nat, h: State, c: nat, call: Call, reply: Reply) returns (r: State)
    requires Reached(n, h) && c < |h.clients| && h.clients[c].phase == Blocked(call) && h.clients[c].inbox == [reply]
    requires reply.Timed? ==> reply.time <= h.clients[c].clock
    ensures var k := h.clients[c];
      r == SetClient(h, c, k.(phase := Computing, inbox := [], held := if Grant(call).Some? then k.held + {Grant(call).value} else k.held))
    ensures Reached(n, r)
  {
    Take(n, h, Receive(c));
    assert [reply][1..] == [];
    r := Do(h, Receive(c));
  }

  // A core that computes and has nothing on its way.
  predicate AtWork(s: State, c: nat) {
    c < |s.clients| && s.clients[c].phase.Computing? && s.clients[c].inbox == [] && s.clients[c].place.None? && s.clients[c].status.Running?
  }

  lemma {:induction false} NewMutex(n: nat, s: State, c: nat)
    requires Reached(n, s) && AtWork(s, c)
    ensures Reached(n, s.(mutexes := s.mutexes + [Mutex(None, [])]))
  {
    var a := Ask(n, s, c, MutexInit);
    var h := Handle(a, c);
    assert h.clients[c].inbox == [Index(|s.mutexes|)];
    var r := Get(n, h, c, MutexInit, Index(|s.mutexes|));
    assert r.clients == s.clients;
  }

  lemma {:induction false} NewCond(n: nat, s: State, c: nat)
    requires Reached(n, s) && AtWork(s, c)
    ensures Reached(n, s.(conds := s.conds + [Cond([], [])]))
  {
    var a := Ask(n, s, c, CondInit);
    var h := Handle(a, c);
    assert h.clients[c].inbox == [Index(|s.conds|)];
    var r := Get(n, h, c, CondInit, Index(|s.conds|));
    assert r.clients == s.clients;
  }

  lemma {:induction false} NewBarrier(n: nat, s: State, c: nat, count: nat)
    requires Reached(n, s) && AtWork(s, c)
    ensures Reached(n, s.(barriers := s.barriers + [Barrier(count, [], 0)]))
  {
    var a := Ask(n, s, c, BarrierInit(count));
    var h := Handle(a, c);
    assert h.clients[c].inbox == [Index(|s.barriers|)];
    var r := Get(n, h, c, BarrierInit(count), Index(|s.barriers|));
    assert r.clients == s.clients;
  }

  // Clients, mutexes and condition variables replaced.
  function With(s: State, clients: seq<Client>, mutexes: seq<Mutex>, conds: seq<Cond>): State {
    s.(clients := clients, mutexes := mutexes, conds := conds)
  }

  // A free mutex is locked.
  lemma {:induction false} Locks(n: nat, s: State, c: nat, m: nat, clients: seq<Client>, mutexes: seq<Mutex>)
    requires Reached(n, s) && AtWork(s, c) && m < |s.mutexes| && Free(s, m)
    requires clients == s.clients[c := s.clients[c].(held := s.clients[c].held + {m})]
    requires mutexes == s.mutexes[m := s.mutexes[m].(owner := Some(c))]
    ensures Reached(n, With(s, clients, mutexes, s.conds))
  {
    var a := Ask(n, s, c, MutexLock(m));
    var h := Handle(a, c);
    assert h.clients[c].inbox == [Granted(s.clients[c].clock)];
    var r := Get(n, h, c, MutexLock(m), Granted(s.clients[c].clock));
    assert r.clients == clients;
  }

  // A mutex that nobody waits for is unlocked.
  lemma {:induction false} Unlocks(n: nat, s: State, c: nat, m: nat, clients: seq<Client>, mutexes: seq<Mutex>)
    requires Reached(n, s) && AtWork(s, c) && m < |s.mutexes| && s.mutexes[m] == Mutex(Some(c), [])
    requires clients == s.clients[c := s.clients[c].(held := s.clients[c].held - {m})]
    requires mutexes == s.mutexes[m := Mutex(None, [])]
    ensures Reached(n, With(s, clients, mutexes, s.conds))
  {
    var a := Ask(n, s, c, MutexUnlock(m));
    var h := Handle(a, c);
    assert h.clients[c].inbox == [Plain(MUTEX_UNLOCK_RESPONSE)];
    var r := Get(n, h, c, MutexUnlock(m), Plain(MUTEX_UNLOCK_RESPONSE));
    assert r.clients == clients;
  }

  function Waits(k: Client, cond: nat, m: nat): Client {
    k.(status := Stalled, phase := Blocked(CondWait(cond, m)), place := Some(InCond(cond)), held := k.held - {m})
  }

  // A core waits on a condition variable, and its mutex is free again.
  lemma {:induction false} Awaits(n: nat, s: State, c: nat, k: nat, m: nat, clients: seq<Client>, mutexes: seq<Mutex>, conds: seq<Cond>)
    requires Reached(n, s) && AtWork(s, c) && k < |s.conds| && m < |s.mutexes| && s.mutexes[m] == Mutex(Some(c), [])
    requires clients == s.clients[c := Waits(s.clients[c], k, m)] && mutexes == s.mutexes[m := Mutex(None, [])]
    requires conds == s.conds[k := Cond(s.conds[k].waiting + [c], s.conds[k].muxes + [m])]
    ensures Reached(n, With(s, clients, mutexes, conds))
  {
    var a := Ask(n, s, c, CondWait(k, m));
    var h := Handle(a, c);
    assert h.clients == clients;
    assert h.mutexes == mutexes;
    assert h.conds == conds;
  }

  function Told(k: Client, time: nat): Client {
    k.(status := Running, place := None, inbox := [Granted(time)])
  }

  lemma {:induction false} SignalDone(s: State, c: nat, k: nat, time: nat, d: nat, m: nat)
    requires Shape(s) && c < |s.clients| && CanWake(s, k) && s.conds[k].waiting[0] == d != c && s.conds[k].muxes[0] == m
    requires Free(s, m) && s.clients[d].inbox == [] && s.clients[c].inbox == []
    ensures var r := DoSignal(s, c, k, time);
      && r.clients == s.clients[d := Told(s.clients[d], time)][c := s.clients[c].(inbox := [Plain(COND_SIGNAL_RESPONSE)])]
      && r.mutexes == s.mutexes[m := s.mutexes[m].(owner := Some(d))]
      && r.conds == s.conds[k := Cond(s.conds[k].waiting[1..], s.conds[k].muxes[..|s.conds[k].muxes| - 1])]
      && r.barriers == s.barriers && r.futexes == s.futexes && r.joiners == s.joiners
  {
    var (r, plain) := (DoSignal(s, c, k, time), Plain(COND_SIGNAL_RESPONSE));
    assert s.clients[d].inbox + [Granted(time)] == [Granted(time)] && s.clients[c].inbox + [plain] == [plain];
    assert r.clients[d] == Told(s.clients[d], time) && r.clients[c] == s.clients[c].(inbox := [plain]);
  }

  // A signal wakes the first waiter, whose recorded mutex is free.
  lemma {:induction false} Signals(n: nat, s: State, c: nat, k: nat, d: nat, m: nat,
                                   clients: seq<Client>, mutexes: seq<Mutex>, conds: seq<Cond>)
    requires Reached(n, s) && AtWork(s, c) && CanWake(s, k) && s.conds[k].waiting[0] == d != c && s.conds[k].muxes[0] == m
    requires Free(s, m) && s.clients[d].inbox == []
    requires clients == s.clients[d := Told(s.clients[d], s.clients[c].clock)]
    requires mutexes == s.mutexes[m := s.mutexes[m].(owner := Some(d))]
    requires conds == s.conds[k := Cond(s.conds[k].waiting[1..], s.conds[k].muxes[..|s.conds[k].muxes| - 1])]
    ensures Reached(n, With(s, clients, mutexes, conds))
  {
    var a := Ask(n, s, c, CondSignal(k));
    SignalDone(Accept(a, c), c, k, s.clients[c].clock, d, m);
    var r := Get(n, Handle(a, c), c, CondSignal(k), Plain(COND_SIGNAL_RESPONSE));
    assert r.clients == clients;
  }

  // ---------------------------------------------------------------- a mutex with two holders

  function Core(held: set<nat>): Client { Client(Running, Computing, [], 0, None, held) }

  // Three cores
  function Three(clients: seq<Client>, mutexes: seq<Mutex>, conds: seq<Cond>): State {
    State(clients, mutexes, conds, [], map[], [[], [], []])
  }

  const FREE := Mutex(None, [])

  // The waiters, with mutexes 0 and 1
  const W0 := Waits(Core({0}), 0, 0)
  const W1 := Waits(Core({1}), 0, 1)

  lemma {:induction false} ThreeThreads()
    ensures Reached(3, Three([Core({}), Core({}), Core({})], [], []))
  {
    var gone := Client(Idle, Gone, [], 0, None, {});
    var s := Three([Core({}), gone, gone], [], []);
    assert s.joiners == seq(3, _ => []);
    FromStart(s, 3);
    Take(3, s, Begin(1));
    var s1 := Three([Core({}), Core({}), gone], [], []);
    assert Do(s, Begin(1)) == s1;
    Take(3, s1, Begin(2));
    assert Do(s1, Begin(2)) == Three([Core({}), Core({}), Core({})], [], []);
  }

  // Two mutexes and a condition variable
  lemma {:induction false} Furnished()
    ensures Reached(3, Three([Core({}), Core({}), Core({})], [FREE, FREE], [Cond([], [])]))
  {
    ThreeThreads();
    var s := Three([Core({}), Core({}), Core({})], [], []);
    NewMutex(3, s, 0);
    assert s.mutexes + [FREE] == [FREE];
    NewMutex(3, s.(mutexes := [FREE]), 0);
    assert [FREE] + [FREE] == [FREE, FREE];
    NewCond(3, s.(mutexes := [FREE, FREE]), 0);
    assert s.conds + [Cond([], [])] == [Cond([], [])];
  }

  // Core 1 waits with mutex 0.
  lemma {:induction false} OneWaits()
    ensures Reached(3, Three([Core({}), W0, Core({})], [FREE, FREE], [Cond([1], [0])]))
  {
    Furnished();
    var s := Three([Core({}), Core({}), Core({})], [FREE, FREE], [Cond([], [])]);
    assert {} + {0} == {0};
    Locks(3, s, 1, 0, [Core({}), Core({0}), Core({})], [Mutex(Some(1), []), FREE]);
    var s1 := With(s, [Core({}), Core({0}), Core({})], [Mutex(Some(1), []), FREE], s.conds);
    assert [] + [1] == [1] && [] + [0] == [0];
    Awaits(3, s1, 1, 0, 0, [Core({}), W0, Core({})], [FREE, FREE], [Cond([1], [0])]);
  }

  // Core 2 waits on the same condition variable with mutex 1.
  lemma {:induction false} TwoWait()
    ensures Reached(3, Three([Core({}), W0, W1], [FREE, FREE], [Cond([1, 2], [0, 1])]))
  {
    OneWaits();
    var s := Three([Core({}), W0, Core({})], [FREE, FREE], [Cond([1], [0])]);
    assert {} + {1} == {1};
    Locks(3, s, 2, 1, [Core({}), W0, Core({1})], [FREE, Mutex(Some(2), [])]);
    var s1 := With(s, [Core({}), W0, Core({1})], [FREE, Mutex(Some(2), [])], s.conds);
    assert [1] + [2] == [1, 2] && [0] + [1] == [0, 1];
    Awaits(3, s1, 2, 0, 1, [Core({}), W0, W1], [FREE, FREE], [Cond([1, 2], [0, 1])]);
  }

  // Core 0 locks mutex 1 and signals; core 1 gets mutex 0, and mutex 0 is recorded for core 2.
  lemma {:induction false} OneWakes()
    ensures Reached(3, Three([Core({1}), Told(W0, 0), W1], [Mutex(Some(1), []), Mutex(Some(0), [])], [Cond([2], [0])]))
  {
    TwoWait();
    var s := Three([Core({}), W0, W1], [FREE, FREE], [Cond([1, 2], [0, 1])]);
    assert {} + {1} == {1};
    Locks(3, s, 0, 1, [Core({1}), W0, W1], [FREE, Mutex(Some(0), [])]);
    var s1 := With(s, [Core({1}), W0, W1], [FREE, Mutex(Some(0), [])], s.conds);
    assert [1, 2][1..] == [2] && [0, 1][..1] == [0];
    Signals(3, s1, 0, 0, 1, 0, [Core({1}), Told(W0, 0), W1], [Mutex(Some(1), []), Mutex(Some(0), [])], [Cond([2], [0])]);
  }

  // Core 1 goes on and unlocks mutex 0.
  lemma {:induction false} OneLeaves()
    ensures Reached(3, Three([Core({1}), Core({}), W1], [FREE, Mutex(Some(0), [])], [Cond([2], [0])]))
  {
    OneWakes();
    var mutexes := [Mutex(Some(1), []), Mutex(Some(0), [])];
    var s := Three([Core({1}), Told(W0, 0), W1], mutexes, [Cond([2], [0])]);
    var r := Get(3, s, 1, CondWait(0, 0), Granted(0));
    assert W0.held + {0} == {0} && {0} - {0} == {};
    assert r.clients == [Core({1}), Core({0}), W1];
    Unlocks(3, r, 1, 0, [Core({1}), Core({}), W1], [FREE, Mutex(Some(0), [])]);
  }

  // Core 0 signals again: core 2 is granted mutex 0, takes the reply for a grant of
  // the mutex it named, and that one is core 0's.
  lemma {:induction false} TwoHolders() returns (states: seq<State>, steps: seq<Step>)
    ensures Run(states, steps) && Init(states[0], 3) && |states[|steps|].clients| == 3
    ensures Holds(states[|steps|].clients[0], 1) && Holds(states[|steps|].clients[2], 1)
    ensures |states[|steps|].mutexes| == 2 && states[|steps|].mutexes[1].owner == Some(0)
  {
    OneLeaves();
    var s := Three([Core({1}), Core({}), W1], [FREE, Mutex(Some(0), [])], [Cond([2], [0])]);
    var (clients, mutexes, conds) := ([Core({1}), Core({}), Told(W1, 0)], [Mutex(Some(2), []), Mutex(Some(0), [])], [Cond([], [])]);
    assert [2][1..] == [] && [0][..0] == [];
    Signals(3, s, 0, 0, 2, 0, clients, mutexes, conds);
    states, steps :| Run(states, steps) && Init(states[0], 3) && states[|steps|] == With(s, clients, mutexes, conds);
  }

  // ---------------------------------------------------------------- a barrier beyond its flags

  // Two threads and a barrier for one
  function Two(clients: seq<Client>, barriers: seq<Barrier>): State {
    State(clients, [], [], barriers, map[], [[], []])
  }

  lemma {:induction false} OneBarrier()
    ensures Reached(2, Two([Core({}), Core({})], [Barrier(1, [], 0)]))
  {
    var s := Two([Core({}), Client(Idle, Gone, [], 0, None, {})], []);
    assert s.joiners == seq(2, _ => []);
    FromStart(s, 2);
    Take(2, s, Begin(1));
    var s1 := Two([Core({}), Core({})], []);
    assert Do(s, Begin(1)) == s1;
    NewBarrier(2, s1, 1, 1);
    assert s1.barriers + [Barrier(1, [], 0)] == [Barrier(1, [], 0)];
  }

  // Core 1 comes to it: there is one flag, with the number 0, and the index is 1.
  lemma {:induction false} BeyondFlags() returns (states: seq<State>, steps: seq<Step>)
    ensures Run(states, steps) && Init(states[0], 2) && Enabled(states[|steps|], Serve(1))
    ensures var s := states[|steps|];
      && s.clients[1].phase == Sent(BarrierWait(0)) && |s.barriers| == 1 && s.barriers[0] == Barrier(1, [], 0)
      && !FlagsReach(s, 1, BarrierWait(0))
      && var r := Arrive(Accept(s, 1), 0, 1, s.clients[1].clock);
         |r.clients| == 2 && r.barriers[0].waiting == [1] && ResumeTiles(r.clients, [1], NoFlags(1)) == None
  {
    OneBarrier();
    var s := Two([Core({}), Core({})], [Barrier(1, [], 0)]);
    Take(2, s, Request(1, BarrierWait(0)));
    var r := Do(s, Request(1, BarrierWait(0)));
    Take(2, r, Serve(1));
    assert ([] + [1])[0] == 1;
    states, steps :| Run(states, steps) && Init(states[0], 2) && states[|steps|] == r;
  }
}
