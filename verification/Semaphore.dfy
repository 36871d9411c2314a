/**
 common/misc/semaphore.cc: a counting semaphore over a futex word.

 Any number of threads call wait, signal and broadcast in any order.  One step
 is one access to the lock, the counters or the futex; FUTEX_WAIT puts a thread
 to sleep only while the word is 0, FUTEX_WAKE wakes any one sleeper or all of
 them, and a sleeper may also wake up for no reason.
 */
module Semaphore {
  // Where a thread is: outside, or before the named access.
  datatype Pc =
    | Outside
    | WaitLock | Test | ClearFutex | WaitUnlock | FutexWait | Asleep | Relock | Lower | TakeUnlock
    | PostLock(all: bool) | Post(all: bool) | Flag(all: bool) | FutexWake(all: bool) | PostUnlock

  datatype Op = CallWait | CallSignal | CallBroadcast

  datatype Option<T> = None | Some(value: T)

  // posts counts signals and broadcasts that raised the count, takes the waits that lowered it.
  datatype State = State(count: int, numWaiting: int, futx: int, holder: Option<nat>,
                         threads: seq<Pc>, posts: nat, takes: nat)

  datatype Step = Call(thread: nat, op: Op) | Move(thread: nat, woken: nat) | Spurious(thread: nat)

  predicate Asleeps(p: Pc) { p.Asleep? }

  // In the loop of wait and not asleep.
  predicate Awake(p: Pc) {
    p.Test? || p.ClearFutex? || p.WaitUnlock? || p.FutexWait? || p.Relock? || p.Lower?
  }

  // Between the two updates of _numWaiting.
  predicate Waiting(p: Pc) {
    p.ClearFutex? || p.WaitUnlock? || p.FutexWait? || p.Asleep? || p.Relock? || p.Lower?
  }

  // Between acquire and release.
  predicate Locked(p: Pc) {
    || p.Test? || p.ClearFutex? || p.WaitUnlock? || p.Lower? || p.TakeUnlock?
    || p.Post? || p.Flag? || p.FutexWake? || p.PostUnlock?
  }

  function Number(ts: seq<Pc>, f: Pc -> bool): nat {
    if ts == [] then 0 else Number(ts[1..], f) + (if f(ts[0]) then 1 else 0)
  }

  predicate SomeAsleep(s: State) {
    exists i :: 0 <= i < |s.threads| && s.threads[i].Asleep?
  }

  // ---------------------------------------------------------------- steps

  predicate Enabled(s: State, step: Step) {
    && step.thread < |s.threads|
    && var p := s.threads[step.thread];
       match step
       case Call(_, _) => p.Outside?
       case Spurious(_) => p.Asleep? || p.FutexWait?
       case Move(_, w) =>
         if p.WaitLock? || p.Relock? || p.PostLock? then s.holder.None?
         else if p == FutexWake(false) && SomeAsleep(s) then w < |s.threads| && s.threads[w].Asleep?
         else !p.Outside? && !p.Asleep?
  }

  function At(s: State, i: nat, p: Pc): State
    requires i < |s.threads|
  {
    s.(threads := s.threads[i := p])
  }

  function WakeAll(ts: seq<Pc>): (r: seq<Pc>)
    ensures |r| == |ts|
  {
    if ts == [] then [] else [if ts[0].Asleep? then Relock else ts[0]] + WakeAll(ts[1..])
  }

  function Do(s: State, step: Step): State
    requires Enabled(s, step)
  {
    var i := step.thread;
    match step
    case Call(_, op) => At(s, i, if op.CallWait? then WaitLock else PostLock(op.CallBroadcast?))
    case Spurious(_) => At(s, i, Relock)
    case Move(_, w) =>
      match s.threads[i]
      // wait
      case WaitLock => At(s.(holder := Some(i)), i, Test)
      case Test =>
        if s.count <= 0 then At(s.(numWaiting := s.numWaiting + 1), i, ClearFutex)
        else At(s.(count := s.count - 1, takes := s.takes + 1), i, TakeUnlock)
      case ClearFutex => At(s.(futx := 0), i, WaitUnlock)
      case WaitUnlock => At(s.(holder := None), i, FutexWait)
      case FutexWait => At(s, i, if s.futx == 0 then Asleep else Relock)
      case Relock => At(s.(holder := Some(i)), i, Lower)
      case Lower => At(s.(numWaiting := s.numWaiting - 1), i, Test)
      case TakeUnlock => At(s.(holder := None), i, Outside)
      // signal and broadcast
      case PostLock(all) => At(s.(holder := Some(i)), i, Post(all))
      case Post(all) => At(s.(count := s.count + 1, posts := s.posts + 1), i, Flag(all))
      case Flag(all) =>
        if s.numWaiting > 0 then At(s.(futx := 1), i, FutexWake(all)) else At(s, i, PostUnlock)
      case FutexWake(all) =>
        if all then s.(threads := WakeAll(s.threads)[i := PostUnlock])
        else if SomeAsleep(s) then At(At(s, w, Relock), i, PostUnlock)
        else At(s, i, PostUnlock)
      case PostUnlock => At(s.(holder := None), i, Outside)
  }

  predicate Init(s: State, count: nat, n: nat) {
    s == State(count, 0, 0, None, seq(n, _ => Outside), 0, 0)
  }

  predicate Run(states: seq<State>, steps: seq<Step>) {
    && |states| == |steps| + 1
    && forall t :: 0 <= t < |steps| ==> Taken(states, steps, t)
  }

  predicate Taken(states: seq<State>, steps: seq<Step>, t: nat)
    requires t < |steps| && |states| == |steps| + 1
  {
    Enabled(states[t], steps[t]) && states[t + 1] == Do(states[t], steps[t])
  }

  // ---------------------------------------------------------------- invariant

  predicate HoldsLock(s: State, i: nat)
    requires i < |s.threads|
  {
    Locked(s.threads[i]) <==> s.holder == Some(i)
  }

  // Some thread has raised the count and has not woken anybody yet.
  predicate MidPost(s: State) {
    s.holder.Some? && s.holder.value < |s.threads|
    && (s.threads[s.holder.value].Flag? || s.threads[s.holder.value].FutexWake?)
  }

  predicate LockInv(s: State) {
    && (forall i :: 0 <= i < |s.threads| ==> HoldsLock(s, i))
    && (s.holder.Some? ==> s.holder.value < |s.threads|)
  }

  // Where the holder of the lock is.
  function HolderPc(s: State): Pc
    requires LockInv(s)
  {
    if s.holder.None? then Outside else s.threads[s.holder.value]
  }

  // How the counters, the word and the numbers of threads hang together while
  // the holder of the lock is at `pc`.
  predicate Balanced(count: int, numWaiting: int, futx: int, pc: Pc, asleep: nat, awake: nat, waiting: nat) {
    && count >= 0 && numWaiting == waiting && asleep <= waiting
    && (futx == 0 || futx == 1)
    // The word is 0 only while there is nothing to take.
    && (futx == 0 && numWaiting > 0 ==> count == 0 || (count == 1 && pc.Flag?))
    && (pc.ClearFutex? || pc.WaitUnlock? ==> count == 0)
    // The wake-up that is due comes first, then the threads that will test again.
    && (asleep > 0 ==> count <= awake + (if pc.Flag? || pc.FutexWake? then 1 else 0))
  }

  predicate Inv(s: State, initial: nat) {
    && LockInv(s)
    && s.count == initial + s.posts - s.takes
    && Balanced(s.count, s.numWaiting, s.futx, HolderPc(s),
                Number(s.threads, Asleeps), Number(s.threads, Awake), Number(s.threads, Waiting))
  }

  // ---------------------------------------------------------------- counting

  lemma {:induction false} NumberAt(ts: seq<Pc>, i: nat, p: Pc, f: Pc -> bool)
    requires i < |ts|
    ensures Number(ts[i := p], f) == Number(ts, f) - (if f(ts[i]) then 1 else 0) + (if f(p) then 1 else 0)
    decreases |ts|
  {
    if i > 0 {
      assert ts[i := p][1..] == ts[1..][i - 1 := p];
      NumberAt(ts[1..], i - 1, p, f);
    } else {
      assert ts[i := p][1..] == ts[1..];
    }
  }

  lemma {:induction false} NumberHas(ts: seq<Pc>, i: nat, f: Pc -> bool)
    requires i < |ts| && f(ts[i])
    ensures Number(ts, f) > 0
    decreases |ts|
  {
    if i > 0 {
      NumberHas(ts[1..], i - 1, f);
    }
  }

  lemma {:induction false} NumberSome(ts: seq<Pc>, f: Pc -> bool)
    requires Number(ts, f) > 0
    ensures exists i :: 0 <= i < |ts| && f(ts[i])
    decreases |ts|
  {
    if !f(ts[0]) {
      NumberSome(ts[1..], f);
      var i :| 0 <= i < |ts[1..]| && f(ts[1..][i]);
      assert f(ts[i + 1]);
    } else {
      assert f(ts[0]);
    }
  }

  // Sleepers are among the waiting.
  lemma NumberLess(ts: seq<Pc>)
    ensures Number(ts, Asleeps) <= Number(ts, Waiting)
  {}

  lemma {:induction false} WakeAllNumbers(ts: seq<Pc>)
    ensures Number(WakeAll(ts), Asleeps) == 0
    ensures Number(WakeAll(ts), Waiting) == Number(ts, Waiting)
    ensures forall i :: 0 <= i < |ts| ==> WakeAll(ts)[i] == if ts[i].Asleep? then Relock else ts[i]
    decreases |ts|
  {
    if ts != [] {
      WakeAllNumbers(ts[1..]);
      assert WakeAll(ts)[1..] == WakeAll(ts[1..]);
    }
  }

  // What moving one thread does to all the numbers.
  lemma {:induction false} AtNumbers(ts: seq<Pc>, i: nat, p: Pc)
    requires i < |ts|
    ensures Number(ts[i := p], Asleeps) == Number(ts, Asleeps) - (if ts[i].Asleep? then 1 else 0) + (if p.Asleep? then 1 else 0)
    ensures Number(ts[i := p], Awake) == Number(ts, Awake) - (if Awake(ts[i]) then 1 else 0) + (if Awake(p) then 1 else 0)
    ensures Number(ts[i := p], Waiting) == Number(ts, Waiting) - (if Waiting(ts[i]) then 1 else 0) + (if Waiting(p) then 1 else 0)
  {
    NumberAt(ts, i, p, Asleeps);
    NumberAt(ts, i, p, Awake);
    NumberAt(ts, i, p, Waiting);
  }

  // Thread i alone moves, and takes or leaves the lock as its place says.
  lemma {:induction false} LockAt(s: State, s': State, i: nat)
    requires LockInv(s) && i < |s.threads| == |s'.threads| && s'.threads == s.threads[i := s'.threads[i]]
    requires || (s'.holder == s.holder && Locked(s'.threads[i]) == Locked(s.threads[i]))
             || (s.holder.None? && s'.holder == Some(i) && Locked(s'.threads[i]))
             || (s.holder == Some(i) && s'.holder.None? && !Locked(s'.threads[i]))
    ensures LockInv(s')
    ensures HolderPc(s') == if s'.holder == Some(i) then s'.threads[i] else if s'.holder.None? then Outside else HolderPc(s)
  {
    forall j | 0 <= j < |s'.threads| ensures HoldsLock(s', j) {
      assert HoldsLock(s, j) && HoldsLock(s, i);
    }
  }

  // A step of wait that holds the lock, and keeps or releases it.
  lemma {:induction false} LoopKeepsInv(s: State, step: Step, initial: nat)
    requires Inv(s, initial) && Enabled(s, step) && step.Move?
    requires var p := s.threads[step.thread]; p.Test? || p.ClearFutex? || p.WaitUnlock? || p.Lower? || p.TakeUnlock?
    ensures Inv(Do(s, step), initial)
  {
    var i := step.thread;
    var s' := Do(s, step);
    assert HoldsLock(s, i);
    LockAt(s, s', i);
    NumberLess(s'.threads);
    AtNumbers(s.threads, i, s'.threads[i]);
  }

  // A step of wait that does not hold the lock, a call or a spurious wake-up.
  lemma {:induction false} WaitKeepsInv(s: State, step: Step, initial: nat)
    requires Inv(s, initial) && Enabled(s, step)
    requires step.Move? ==> var p := s.threads[step.thread]; p.WaitLock? || p.FutexWait? || p.Relock?
    ensures Inv(Do(s, step), initial)
  {
    var i := step.thread;
    var s' := Do(s, step);
    assert HoldsLock(s, i);
    LockAt(s, s', i);
    NumberLess(s'.threads);
    AtNumbers(s.threads, i, s'.threads[i]);
    if Waiting(s.threads[i]) {
      NumberHas(s.threads, i, Waiting);
    }
  }

  // A step of signal or broadcast, except the wake-up.
  lemma {:induction false} PostKeepsInv(s: State, step: Step, initial: nat)
    requires Inv(s, initial) && Enabled(s, step) && step.Move?
    requires var p := s.threads[step.thread]; p.PostLock? || p.Post? || p.Flag? || p.PostUnlock?
    ensures Inv(Do(s, step), initial)
  {
    var i := step.thread;
    var s' := Do(s, step);
    assert HoldsLock(s, i);
    LockAt(s, s', i);
    AtNumbers(s.threads, i, s'.threads[i]);
  }

  lemma {:induction false} WakeOneKeepsInv(s: State, i: nat, w: nat, initial: nat)
    requires Inv(s, initial) && Enabled(s, Move(i, w)) && s.threads[i] == FutexWake(false)
    ensures Inv(Do(s, Move(i, w)), initial)
  {
    assert HoldsLock(s, i);
    if SomeAsleep(s) {
      assert HoldsLock(s, w);
      var s1 := At(s, w, Relock);
      LockAt(s, s1, w);
      LockAt(s1, At(s1, i, PostUnlock), i);
      AtNumbers(s.threads, w, Relock);
      AtNumbers(s1.threads, i, PostUnlock);
    } else {
      var s' := At(s, i, PostUnlock);
      LockAt(s, s', i);
      AtNumbers(s.threads, i, PostUnlock);
      if Number(s'.threads, Asleeps) > 0 {
        NumberSome(s'.threads, Asleeps);
      }
    }
  }

  lemma {:induction false} WakeAllKeepsInv(s: State, i: nat, w: nat, initial: nat)
    requires Inv(s, initial) && Enabled(s, Move(i, w)) && s.threads[i] == FutexWake(true)
    ensures Inv(Do(s, Move(i, w)), initial)
  {
    var s1 := s.(threads := WakeAll(s.threads));
    WakeAllNumbers(s.threads);
    assert HoldsLock(s, i);
    forall j | 0 <= j < |s1.threads| ensures HoldsLock(s1, j) {
      assert HoldsLock(s, j);
    }
    LockAt(s1, At(s1, i, PostUnlock), i);
    AtNumbers(s1.threads, i, PostUnlock);
  }

  lemma {:induction false} StepKeepsInv(s: State, step: Step, initial: nat)
    requires Inv(s, initial) && Enabled(s, step)
    ensures Inv(Do(s, step), initial)
  {
    var p := s.threads[step.thread];
    if !step.Move? || p.WaitLock? || p.FutexWait? || p.Relock? {
      WaitKeepsInv(s, step, initial);
    } else if p.Test? || p.ClearFutex? || p.WaitUnlock? || p.Lower? || p.TakeUnlock? {
      LoopKeepsInv(s, step, initial);
    } else if !p.FutexWake? {
      PostKeepsInv(s, step, initial);
    } else if p.all {
      WakeAllKeepsInv(s, step.thread, step.woken, initial);
    } else {
      WakeOneKeepsInv(s, step.thread, step.woken, initial);
    }
  }

  lemma {:induction false} RunKeepsInv(states: seq<State>, steps: seq<Step>, count: nat, n: nat, t: nat)
    requires Run(states, steps) && Init(states[0], count, n) && t < |states|
    ensures Inv(states[t], count)
  {
    if t == 0 {
      InitInv(states[0], count, n);
    } else {
      RunKeepsInv(states, steps, count, n, t - 1);
      assert Taken(states, steps, t - 1);
      StepKeepsInv(states[t - 1], steps[t - 1], count);
    }
  }

  lemma {:induction false} InitInv(s: State, count: nat, n: nat)
    requires Init(s, count, n)
    ensures Inv(s, count)
  {
    if Number(s.threads, Waiting) > 0 {
      NumberSome(s.threads, Waiting);
      assert false;
    }
    NumberLess(s.threads);
  }

  // ---------------------------------------------------------------- what callers may rely on

  // The count is what was posted and not taken, and never negative.
  lemma {:induction false} CountConserved(states: seq<State>, steps: seq<Step>, count: nat, n: nat, t: nat)
    requires Run(states, steps) && Init(states[0], count, n) && t < |states|
    ensures states[t].count == count + states[t].posts - states[t].takes >= 0
  {
    RunKeepsInv(states, steps, count, n, t);
  }

  // No wake-up is lost: whoever sleeps while there is something to take leaves
  // as many threads awake in the loop as there is to take, apart from the one
  // that a post under way is about to wake.
  lemma {:induction false} NoLostWakeup(states: seq<State>, steps: seq<Step>, count: nat, n: nat, t: nat)
    requires Run(states, steps) && Init(states[0], count, n) && t < |states| && SomeAsleep(states[t])
    ensures Number(states[t].threads, Awake) + (if MidPost(states[t]) then 1 else 0) >= states[t].count
  {
    RunKeepsInv(states, steps, count, n, t);
    var i: nat :| i < |states[t].threads| && states[t].threads[i].Asleep?;
    NumberHas(states[t].threads, i, Asleeps);
  }

  lemma {:induction false} RunMore(states: seq<State>, steps: seq<Step>, step: Step, next: State)
      returns (states': seq<State>, steps': seq<Step>)
    requires Run(states, steps) && Enabled(states[|steps|], step) && next == Do(states[|steps|], step)
    ensures Run(states', steps') && states'[0] == states[0] && states'[|steps'|] == next
    ensures |steps'| == |steps| + 1 && states'[|steps|] == states[|steps|]
  {
    states', steps' := states + [next], steps + [step];
    forall t | 0 <= t < |steps'| ensures Taken(states', steps', t) {
      if t < |steps| {
        assert Taken(states, steps, t);
      }
    }
  }

  // Thread 0 of two, with nothing to take, decides to wait.
  lemma {:induction false} OneWaits() returns (states: seq<State>, steps: seq<Step>)
    ensures Run(states, steps) && Init(states[0], 0, 2) && states[|steps|] == State(0, 1, 0, None, [FutexWait, Outside], 0, 0)
  {
    states, steps := [State(0, 0, 0, None, [Outside, Outside], 0, 0)], [];
    states, steps := RunMore(states, steps, Call(0, CallWait), State(0, 0, 0, None, [WaitLock, Outside], 0, 0));
    states, steps := RunMore(states, steps, Move(0, 0), State(0, 0, 0, Some(0), [Test, Outside], 0, 0));
    states, steps := RunMore(states, steps, Move(0, 0), State(0, 1, 0, Some(0), [ClearFutex, Outside], 0, 0));
    states, steps := RunMore(states, steps, Move(0, 0), State(0, 1, 0, Some(0), [WaitUnlock, Outside], 0, 0));
    states, steps := RunMore(states, steps, Move(0, 0), State(0, 1, 0, None, [FutexWait, Outside], 0, 0));
  }

  // And that one is needed: with one sleeper and a signal before its FUTEX_WAKE
  // there is something to take and nobody awake.
  lemma {:induction false} WakeUpIsDue() returns (states: seq<State>, steps: seq<Step>)
    ensures Run(states, steps) && Init(states[0], 0, 2)
    ensures var s := states[|steps|];
      SomeAsleep(s) && s.count == 1 && Number(s.threads, Awake) == 0 && MidPost(s)
  {
    states, steps := OneWaits();
    states, steps := RunMore(states, steps, Move(0, 0), State(0, 1, 0, None, [Asleep, Outside], 0, 0));
    states, steps := RunMore(states, steps, Call(1, CallSignal), State(0, 1, 0, None, [Asleep, PostLock(false)], 0, 0));
    states, steps := RunMore(states, steps, Move(1, 0), State(0, 1, 0, Some(1), [Asleep, Post(false)], 0, 0));
    states, steps := RunMore(states, steps, Move(1, 0), State(1, 1, 0, Some(1), [Asleep, Flag(false)], 1, 0));
    assert states[|steps|].threads[0].Asleep?;
    NoneAwake();
  }

  lemma NoneAwake()
    ensures Number([Asleep, Flag(false)], Awake) == 0
  {
    assert [Asleep, Flag(false)][1..] == [Flag(false)] && [Flag(false)][1..] == [];
    assert Number([Flag(false)], Awake) == 0;
  }

  // The other order: thread 0 has decided to wait, and falls asleep after the signal
  // has raised the count and before it has set the word.
  lemma {:induction false} SleepsMidPost() returns (states: seq<State>, steps: seq<Step>)
    ensures Run(states, steps) && Init(states[0], 0, 2) && |steps| >= 1
    ensures states[|steps| - 1].threads == [FutexWait, Flag(false)] && states[|steps| - 1].count == 1
    ensures states[|steps|].threads == [Asleep, Flag(false)] && states[|steps|].count == 1
  {
    states, steps := OneWaits();
    states, steps := RunMore(states, steps, Call(1, CallSignal), State(0, 1, 0, None, [FutexWait, PostLock(false)], 0, 0));
    states, steps := RunMore(states, steps, Move(1, 0), State(0, 1, 0, Some(1), [FutexWait, Post(false)], 0, 0));
    states, steps := RunMore(states, steps, Move(1, 0), State(1, 1, 0, Some(1), [FutexWait, Flag(false)], 1, 0));
    states, steps := RunMore(states, steps, Move(0, 0), State(1, 1, 0, Some(1), [Asleep, Flag(false)], 1, 0));
  }

  // A thread that has decided to wait falls asleep with something to take if and only
  // if a post stands between raising the count and setting the word.
  lemma {:induction false} FallsAsleep(states: seq<State>, steps: seq<Step>, count: nat, n: nat, t: nat, i: nat, w: nat)
    requires Run(states, steps) && Init(states[0], count, n) && t < |states|
    requires i < |states[t].threads| && states[t].threads[i].FutexWait? && states[t].count > 0
    ensures LockInv(states[t])
    ensures Do(states[t], Move(i, w)).threads[i].Asleep? <==> HolderPc(states[t]).Flag? && states[t].futx == 0
  {
    RunKeepsInv(states, steps, count, n, t);
    NumberHas(states[t].threads, i, Waiting);
  }

  // ---------------------------------------------------------------- when the bound breaks, and when it is restored

  // As many are awake in the loop as there is to take, if anybody sleeps.
  predicate Bound(s: State) {
    SomeAsleep(s) ==> Number(s.threads, Awake) >= s.count
  }

  predicate Wakes(s: State, step: Step)
    requires Enabled(s, step)
  {
    step.Move? && s.threads[step.thread].FutexWake?
  }

  // One more to take while somebody sleeps, or one more asleep while there is something
  // to take, when the threads awake are just enough.
  predicate Breaks(s: State, step: Step)
    requires Enabled(s, step)
  {
    var p := s.threads[step.thread];
    step.Move? && s.count == Number(s.threads, Awake) && ((p.Post? && SomeAsleep(s)) || (p.FutexWait? && s.futx == 0))
  }

  // A sleeper wakes up for no reason.
  predicate Stirs(s: State, step: Step)
    requires Enabled(s, step)
  {
    step.Spurious? && s.threads[step.thread].Asleep?
  }

  // Sleepers by number.
  lemma {:induction false} SomeNumber(s: State)
    ensures SomeAsleep(s) <==> Number(s.threads, Asleeps) > 0
  {
    if SomeAsleep(s) {
      var i: nat :| i < |s.threads| && s.threads[i].Asleep?;
      NumberHas(s.threads, i, Asleeps);
    } else if Number(s.threads, Asleeps) > 0 {
      NumberSome(s.threads, Asleeps);
      assert false;
    }
  }

  ghost predicate BoundNext(s: State, step: Step)
    requires Enabled(s, step)
  {
    Bound(Do(s, step)) <==> Wakes(s, step) || (if Bound(s) then !Breaks(s, step) else Stirs(s, step))
  }

  lemma {:induction false} LoopBound(s: State, step: Step, initial: nat)
    requires Inv(s, initial) && Enabled(s, step) && step.Move?
    requires var p := s.threads[step.thread]; p.Test? || p.ClearFutex? || p.WaitUnlock? || p.Lower? || p.TakeUnlock?
    ensures BoundNext(s, step)
  {
    var s' := Do(s, step);
    assert HoldsLock(s, step.thread);
    SomeNumber(s);
    SomeNumber(s');
    AtNumbers(s.threads, step.thread, s'.threads[step.thread]);
  }

  lemma {:induction false} WaitBound(s: State, step: Step, initial: nat)
    requires Inv(s, initial) && Enabled(s, step)
    requires step.Move? ==> var p := s.threads[step.thread]; p.WaitLock? || p.FutexWait? || p.Relock?
    ensures BoundNext(s, step)
  {
    var (i, s') := (step.thread, Do(s, step));
    SomeNumber(s);
    SomeNumber(s');
    AtNumbers(s.threads, i, s'.threads[i]);
    if Waiting(s.threads[i]) {
      NumberHas(s.threads, i, Waiting);
    }
    if Awake(s.threads[i]) {
      NumberHas(s.threads, i, Awake);
    }
  }

  lemma {:induction false} PostBound(s: State, step: Step, initial: nat)
    requires Inv(s, initial) && Enabled(s, step) && step.Move?
    requires var p := s.threads[step.thread]; p.PostLock? || p.Post? || p.Flag? || p.PostUnlock?
    ensures BoundNext(s, step)
  {
    var s' := Do(s, step);
    assert HoldsLock(s, step.thread);
    SomeNumber(s);
    SomeNumber(s');
    AtNumbers(s.threads, step.thread, s'.threads[step.thread]);
  }

  lemma {:induction false} WakeBound(s: State, step: Step, initial: nat)
    requires Inv(s, initial) && Enabled(s, step) && Wakes(s, step)
    ensures Bound(Do(s, step))
  {
    var s' := Do(s, step);
    StepKeepsInv(s, step, initial);
    assert HoldsLock(s, step.thread) && HoldsLock(s', step.thread);
    SomeNumber(s');
  }

  // From every state and by every step: a wake-up restores the bound; otherwise it is
  // lost exactly by a step that breaks it, and regained exactly by a sleeper that stirs.
  lemma {:induction false} BoundExact(s: State, step: Step, initial: nat)
    requires Inv(s, initial) && Enabled(s, step)
    ensures Bound(Do(s, step)) <==> Wakes(s, step) || (if Bound(s) then !Breaks(s, step) else Stirs(s, step))
  {
    var p := s.threads[step.thread];
    if Wakes(s, step) {
      WakeBound(s, step, initial);
    } else if !step.Move? || p.WaitLock? || p.FutexWait? || p.Relock? {
      WaitBound(s, step, initial);
    } else if p.Test? || p.ClearFutex? || p.WaitUnlock? || p.Lower? || p.TakeUnlock? {
      LoopBound(s, step, initial);
    } else {
      PostBound(s, step, initial);
    }
  }

  // The same in every run, which begins with the bound.
  lemma {:induction false} BoundOverRuns(states: seq<State>, steps: seq<Step>, count: nat, n: nat, t: nat)
    requires Run(states, steps) && Init(states[0], count, n) && t < |steps|
    ensures Bound(states[0]) && Enabled(states[t], steps[t])
    ensures Bound(states[t + 1]) <==>
      Wakes(states[t], steps[t]) || (if Bound(states[t]) then !Breaks(states[t], steps[t]) else Stirs(states[t], steps[t]))
  {
    RunKeepsInv(states, steps, count, n, t);
    assert Taken(states, steps, t);
    BoundExact(states[t], steps[t], count);
  }

  // Somebody asleep with something to take is never the end of a run: a thread
  // inside an operation can move.
  lemma {:induction false} PostedKeepsMoving(states: seq<State>, steps: seq<Step>, count: nat, n: nat, t: nat)
    requires Run(states, steps) && Init(states[0], count, n) && t < |states|
    requires SomeAsleep(states[t]) && states[t].count > 0
    ensures exists step: Step :: step.Move? && Enabled(states[t], step)
  {
    var s := states[t];
    RunKeepsInv(states, steps, count, n, t);
    NoLostWakeup(states, steps, count, n, t);
    var w: nat :| w < |s.threads| && s.threads[w].Asleep?;
    if s.holder.Some? {
      assert HoldsLock(s, s.holder.value);
      assert Enabled(s, Move(s.holder.value, w));
    } else {
      NumberSome(s.threads, Awake);
      var i: nat :| i < |s.threads| && Awake(s.threads[i]);
      assert HoldsLock(s, i);
      assert Enabled(s, Move(i, w));
    }
  }

  // ---------------------------------------------------------------- moves come to an end

  // What a thread may still do among n: the moves of its own pass, and for a post that
  // has not set the word or not woken anybody, the passes that it gives to others.
  function Weight(p: Pc, n: nat): nat {
    match p
    case Outside => 0
    case WaitLock => 6
    case Test => 5
    case ClearFutex => 4
    case WaitUnlock => 3
    case FutexWait => 2
    case Asleep => 1
    case Relock => 7
    case Lower => 6
    case TakeUnlock => 1
    case PostLock(_) => 5 + 14 * n
    case Post(_) => 4 + 14 * n
    case Flag(_) => 3 + 14 * n
    case FutexWake(_) => 2 + 7 * n
    case PostUnlock => 1
  }

  function Weights(ts: seq<Pc>, n: nat): nat {
    if ts == [] then 0 else Weights(ts[1..], n) + Weight(ts[0], n)
  }

  // Whoever comes to FUTEX_WAIT while the word is set makes another pass.
  predicate Passing(p: Pc) { p.WaitUnlock? || p.FutexWait? }

  function Work(s: State): nat {
    Weights(s.threads, |s.threads|) + if s.futx == 0 then 0 else 7 * Number(s.threads, Passing)
  }

  lemma {:induction false} WeightsAt(ts: seq<Pc>, n: nat, i: nat, p: Pc)
    requires i < |ts|
    ensures Weights(ts[i := p], n) == Weights(ts, n) - Weight(ts[i], n) + Weight(p, n)
    decreases |ts|
  {
    if i > 0 {
      assert ts[i := p][1..] == ts[1..][i - 1 := p];
      WeightsAt(ts[1..], n, i - 1, p);
    } else {
      assert ts[i := p][1..] == ts[1..];
    }
  }

  lemma {:induction false} NumberMost(ts: seq<Pc>, f: Pc -> bool)
    ensures Number(ts, f) <= |ts|
    decreases |ts|
  {
    if ts != [] {
      NumberMost(ts[1..], f);
    }
  }

  // Waking everybody adds a pass for each sleeper.
  lemma {:induction false} WeightsWakeAll(ts: seq<Pc>, n: nat)
    ensures Weights(WakeAll(ts), n) <= Weights(ts, n) + 6 * |ts|
    ensures Number(WakeAll(ts), Passing) == Number(ts, Passing)
    decreases |ts|
  {
    if ts != [] {
      WeightsWakeAll(ts[1..], n);
      assert WakeAll(ts)[1..] == WakeAll(ts[1..]);
    }
  }

  // Thread i alone moves.
  lemma {:induction false} WorkAt(s: State, s': State, i: nat)
    requires i < |s.threads| == |s'.threads| && s'.threads == s.threads[i := s'.threads[i]]
    ensures var (n, p, q) := (|s.threads|, s.threads[i], s'.threads[i]);
      && Weights(s'.threads, n) == Weights(s.threads, n) - Weight(p, n) + Weight(q, n)
      && Number(s'.threads, Passing) == Number(s.threads, Passing) - (if Passing(p) then 1 else 0) + (if Passing(q) then 1 else 0)
      && 0 <= Number(s'.threads, Passing) <= n
  {
    WeightsAt(s.threads, |s.threads|, i, s'.threads[i]);
    NumberAt(s.threads, i, s'.threads[i], Passing);
    NumberMost(s'.threads, Passing);
  }

  // A move of wait uses up work.
  lemma {:induction false} WaitMoves(s: State, step: Step)
    requires Enabled(s, step) && step.Move?
    requires var p := s.threads[step.thread]; !p.PostLock? && !p.Post? && !p.Flag? && !p.FutexWake? && !p.PostUnlock?
    ensures Work(Do(s, step)) < Work(s)
  {
    WorkAt(s, Do(s, step), step.thread);
  }

  // So does a move of signal or broadcast.
  lemma {:induction false} PostMoves(s: State, step: Step)
    requires Enabled(s, step) && step.Move?
    requires var p := s.threads[step.thread]; p.PostLock? || p.Post? || p.Flag? || p.PostUnlock?
    ensures Work(Do(s, step)) < Work(s)
  {
    WorkAt(s, Do(s, step), step.thread);
  }

  lemma {:induction false} WakeAllMoves(s: State, i: nat, w: nat)
    requires Enabled(s, Move(i, w)) && s.threads[i] == FutexWake(true)
    ensures Work(Do(s, Move(i, w))) < Work(s)
  {
    var s1 := s.(threads := WakeAll(s.threads));
    WeightsWakeAll(s.threads, |s.threads|);
    WakeAllNumbers(s.threads);
    WorkAt(s1, At(s1, i, PostUnlock), i);
  }

  lemma {:induction false} WakeOneMoves(s: State, i: nat, w: nat)
    requires Enabled(s, Move(i, w)) && s.threads[i] == FutexWake(false)
    ensures Work(Do(s, Move(i, w))) < Work(s)
  {
    if SomeAsleep(s) {
      var s1 := At(s, w, Relock);
      WorkAt(s, s1, w);
      WorkAt(s1, At(s1, i, PostUnlock), i);
    } else {
      WorkAt(s, At(s, i, PostUnlock), i);
    }
  }

  lemma {:induction false} MoveWorks(s: State, step: Step)
    requires Enabled(s, step) && step.Move?
    ensures Work(Do(s, step)) < Work(s)
  {
    var p := s.threads[step.thread];
    if p.FutexWake? && p.all {
      WakeAllMoves(s, step.thread, step.woken);
    } else if p.FutexWake? {
      WakeOneMoves(s, step.thread, step.woken);
    } else if p.PostLock? || p.Post? || p.Flag? || p.PostUnlock? {
      PostMoves(s, step);
    } else {
      WaitMoves(s, step);
    }
  }

  // Without new calls and spurious wake-ups a run is over after a bounded number of moves.
  lemma {:induction false} MovesEnd(states: seq<State>, steps: seq<Step>, initial: nat)
    requires Run(states, steps) && Inv(states[0], initial) && forall t :: 0 <= t < |steps| ==> steps[t].Move?
    ensures Inv(states[|steps|], initial) && |steps| + Work(states[|steps|]) <= Work(states[0])
    decreases |steps|
  {
    if steps != [] {
      var m := |steps| - 1;
      var (before, earlier) := (states[..|steps|], steps[..m]);
      forall t | 0 <= t < m ensures Taken(before, earlier, t) {
        assert Taken(states, steps, t);
      }
      MovesEnd(before, earlier, initial);
      assert Taken(states, steps, m);
      StepKeepsInv(states[m], steps[m], initial);
      MoveWorks(states[m], steps[m]);
    }
  }

  // Where no thread can move, all are outside or asleep, and if somebody sleeps there
  // is nothing to take.
  lemma {:induction false} AtRest(s: State, initial: nat)
    requires Inv(s, initial) && forall step: Step :: step.Move? ==> !Enabled(s, step)
    ensures forall i :: 0 <= i < |s.threads| ==> s.threads[i].Outside? || s.threads[i].Asleep?
    ensures SomeAsleep(s) ==> s.count == 0
  {
    var w: nat := if SomeAsleep(s) then var w: nat :| w < |s.threads| && s.threads[w].Asleep?; w else 0;
    if s.holder.Some? {
      assert HoldsLock(s, s.holder.value);
      assert Enabled(s, Move(s.holder.value, w));
      assert false;
    }
    forall i | 0 <= i < |s.threads| ensures s.threads[i].Outside? || s.threads[i].Asleep? {
      assert HoldsLock(s, i) && !Enabled(s, Move(i, w));
    }
    SomeNumber(s);
    if SomeAsleep(s) && s.count > 0 {
      NumberSome(s.threads, Awake);
      assert false;
    }
  }

  // In every run: however the threads go on from any state, without new calls and
  // spurious wake-ups they come to rest within a bounded number of moves, and then
  // nobody sleeps while there is something to take.
  lemma {:induction false} ComesToRest(states: seq<State>, steps: seq<Step>, count: nat, n: nat, t: nat)
    requires Run(states, steps) && Init(states[0], count, n) && t < |states|
    requires forall k :: t <= k < |steps| ==> steps[k].Move?
    ensures |steps| - t <= Work(states[t])
    ensures (forall step: Step :: step.Move? ==> !Enabled(states[|steps|], step)) ==>
      var s := states[|steps|];
      && (forall i :: 0 <= i < |s.threads| ==> s.threads[i].Outside? || s.threads[i].Asleep?)
      && (SomeAsleep(s) ==> s.count == 0)
  {
    RunKeepsInv(states, steps, count, n, t);
    var (rest, moves) := (states[t..], steps[t..]);
    forall k | 0 <= k < |moves| ensures Taken(rest, moves, k) {
      assert Taken(states, steps, t + k);
    }
    MovesEnd(rest, moves, count);
    if forall step: Step :: step.Move? ==> !Enabled(states[|steps|], step) {
      AtRest(states[|steps|], count);
    }
  }

  // The critical sections exclude each other.
  lemma {:induction false} LockExcludes(states: seq<State>, steps: seq<Step>, count: nat, n: nat, t: nat, i: nat, j: nat)
    requires Run(states, steps) && Init(states[0], count, n) && t < |states|
    requires i < |states[t].threads| && j < |states[t].threads|
    requires Locked(states[t].threads[i]) && Locked(states[t].threads[j])
    ensures i == j
  {
    RunKeepsInv(states, steps, count, n, t);
    assert HoldsLock(states[t], i) && HoldsLock(states[t], j);
  }

  // ---------------------------------------------------------------- whom a signal and a broadcast wake

  // Nobody sleeps, and nobody can fall asleep before the lock is released.
  predicate Roused(s: State) {
    !SomeAsleep(s) && (s.futx == 1 || s.numWaiting == 0)
  }

  // Thread i is in a signal, or in a broadcast if `all`.
  predicate Posting(s: State, i: nat, all: bool) {
    && i < |s.threads|
    && match s.threads[i]
       case PostLock(a) => a == all
       case Post(a) => a == all
       case Flag(a) => a == all
       case FutexWake(a) => a == all && s.futx == 1
       case PostUnlock => all ==> Roused(s)
       case _ => false
  }

  lemma {:induction false} NobodyWaits(s: State, initial: nat)
    requires Inv(s, initial) && s.numWaiting == 0
    ensures forall j :: 0 <= j < |s.threads| ==> !Waiting(s.threads[j])
  {
    forall j | 0 <= j < |s.threads| ensures !Waiting(s.threads[j]) {
      if Waiting(s.threads[j]) {
        NumberHas(s.threads, j, Waiting);
      }
    }
  }

  lemma {:induction false} PosterMoves(s: State, i: nat, w: nat, all: bool, initial: nat)
    requires Inv(s, initial) && Posting(s, i, all) && Enabled(s, Move(i, w)) && !s.threads[i].PostUnlock?
    ensures Posting(Do(s, Move(i, w)), i, all)
  {
    if s.threads[i].Flag? && s.numWaiting <= 0 {
      NumberLess(s.threads);
      NobodyWaits(s, initial);
    } else if s.threads[i] == FutexWake(true) {
      WakeAllNumbers(s.threads);
    }
  }

  // While thread i has the lock, another one moves by itself, and falls asleep only where the word is 0.
  lemma {:induction false} OthersWhileLocked(s: State, step: Step, i: nat) returns (j: nat, p: Pc)
    requires LockInv(s) && i < |s.threads| && Locked(s.threads[i]) && Enabled(s, step) && step.thread != i
    ensures j == step.thread && Do(s, step) == At(s, j, p)
    ensures p.Asleep? ==> s.threads[j].FutexWait? && s.futx == 0
  {
    j := step.thread;
    assert HoldsLock(s, i) && HoldsLock(s, j);
    p := Do(s, step).threads[j];
  }

  // A thread moves only by itself, but a sleeper may be woken.
  lemma {:induction false} OthersStay(s: State, step: Step, i: nat)
    requires Enabled(s, step) && i < |s.threads| && step.thread != i
    ensures |Do(s, step).threads| == |s.threads|
    ensures Do(s, step).threads[i] == s.threads[i] || (s.threads[i].Asleep? && Do(s, step).threads[i].Relock?)
  {
    if step.Move? && s.threads[step.thread] == FutexWake(true) {
      WakeAllNumbers(s.threads);
      assert WakeAll(s.threads)[i] == if s.threads[i].Asleep? then Relock else s.threads[i];
    }
  }

  lemma {:induction false} OthersWhilePosting(s: State, step: Step, i: nat, all: bool, initial: nat)
    requires Inv(s, initial) && Posting(s, i, all) && Enabled(s, step) && step.thread != i
    ensures Posting(Do(s, step), i, all)
  {
    OthersStay(s, step, i);
    if Locked(s.threads[i]) {
      var j, p := OthersWhileLocked(s, step, i);
      if s.threads[i].PostUnlock? && s.numWaiting == 0 {
        NobodyWaits(s, initial);
      }
    }
  }

  lemma {:induction false} PostingOverRuns(states: seq<State>, steps: seq<Step>, count: nat, n: nat, b: nat, t: nat, i: nat, op: Op)
    requires Run(states, steps) && Init(states[0], count, n) && b < t < |states| && steps[b] == Call(i, op) && !op.CallWait?
    requires i < |states[b].threads|
    requires forall u :: b < u <= t ==> i < |states[u].threads| && !states[u].threads[i].Outside?
    ensures Posting(states[t], i, op.CallBroadcast?)
  {
    assert Taken(states, steps, t - 1);
    if t - 1 > b {
      PostingOverRuns(states, steps, count, n, b, t - 1, i, op);
      RunKeepsInv(states, steps, count, n, t - 1);
      var step := steps[t - 1];
      if step.thread != i {
        OthersWhilePosting(states[t - 1], step, i, op.CallBroadcast?, count);
      } else {
        PosterMoves(states[t - 1], i, step.woken, op.CallBroadcast?, count);
      }
    }
  }

  // In every run: when a thread that has called broadcast is about to release the lock, nobody
  // is asleep, whoever was asleep before or has gone to sleep since the call.
  lemma {:induction false} BroadcastWakesAll(states: seq<State>, steps: seq<Step>, count: nat, n: nat, b: nat, t: nat, i: nat)
    requires Run(states, steps) && Init(states[0], count, n) && b < t < |states| && steps[b] == Call(i, CallBroadcast)
    requires i < |states[b].threads|
    requires forall u :: b < u <= t ==> i < |states[u].threads| && !states[u].threads[i].Outside?
    requires states[t].threads[i].PostUnlock?
    ensures !SomeAsleep(states[t])
  {
    PostingOverRuns(states, steps, count, n, b, t, i, CallBroadcast);
  }

  // In every run: the wake-up of a signal wakes one sleeper if there is any, and nobody else moves.
  lemma {:induction false} SignalWakesOne(states: seq<State>, steps: seq<Step>, count: nat, n: nat, b: nat, t: nat, i: nat, w: nat)
    requires Run(states, steps) && Init(states[0], count, n) && b < t < |steps| && steps[b] == Call(i, CallSignal)
    requires i < |states[b].threads|
    requires forall u :: b < u <= t ==> i < |states[u].threads| && !states[u].threads[i].Outside?
    requires steps[t] == Move(i, w) && states[t].threads[i].FutexWake?
    ensures Number(states[t + 1].threads, Asleeps) == Number(states[t].threads, Asleeps) - (if SomeAsleep(states[t]) then 1 else 0)
    ensures |states[t + 1].threads| == |states[t].threads| && states[t + 1].threads[i].PostUnlock?
    ensures forall j :: 0 <= j < |states[t].threads| && j != i && (j != w || !SomeAsleep(states[t])) ==>
      states[t + 1].threads[j] == states[t].threads[j]
    ensures SomeAsleep(states[t]) ==> w < |states[t].threads| && states[t].threads[w].Asleep? && states[t + 1].threads[w].Relock?
  {
    PostingOverRuns(states, steps, count, n, b, t, i, CallSignal);
    assert Taken(states, steps, t);
    var ts := states[t].threads;
    if SomeAsleep(states[t]) {
      AtNumbers(ts, w, Relock);
      AtNumbers(ts[w := Relock], i, PostUnlock);
    } else {
      AtNumbers(ts, i, PostUnlock);
    }
  }

  // ---------------------------------------------------------------- what a call does to the count

  // By how much the steps of thread i from b to t have changed the count.
  function OwnChange(states: seq<State>, steps: seq<Step>, i: nat, b: nat, t: nat): int
    requires |states| == |steps| + 1 && b <= t < |states|
    decreases t
  {
    if t == b then 0
    else OwnChange(states, steps, i, b, t - 1) + if steps[t - 1].thread == i then states[t].count - states[t - 1].count else 0
  }

  // Where a thread is in a call, and what it has done to the count so far.
  predicate InCall(op: Op, p: Pc, change: int) {
    match op
    case CallWait =>
      || (change == 0 && (Waiting(p) || p.WaitLock? || p.Test?))
      || (change == -1 && p.TakeUnlock?)
    case _ =>
      || (change == 0 && (p.PostLock? || p.Post?))
      || (change == 1 && (p.Flag? || p.FutexWake? || p.PostUnlock?))
  }

  lemma {:induction false} CallMoves(s: State, step: Step, i: nat, op: Op, change: int)
    requires Enabled(s, step) && step.thread == i && InCall(op, s.threads[i], change)
    ensures var s' := Do(s, step);
      && |s'.threads| == |s.threads|
      && if s'.threads[i].Outside? then change == (if op.CallWait? then -1 else 1) && s'.count == s.count
         else InCall(op, s'.threads[i], change + s'.count - s.count)
  {}

  lemma {:induction false} OthersInCall(s: State, step: Step, i: nat, op: Op, change: int)
    requires Enabled(s, step) && step.thread != i && i < |s.threads| && InCall(op, s.threads[i], change)
    ensures var s' := Do(s, step);
      |s'.threads| == |s.threads| && !s'.threads[i].Outside? && InCall(op, s'.threads[i], change)
  {
    OthersStay(s, step, i);
  }

  lemma {:induction false} CallSoFar(states: seq<State>, steps: seq<Step>, b: nat, t: nat, i: nat, op: Op)
    requires Run(states, steps) && b < t < |states| && steps[b] == Call(i, op)
    requires forall u :: b < u <= t ==> i < |states[u].threads| && !states[u].threads[i].Outside?
    ensures InCall(op, states[t].threads[i], OwnChange(states, steps, i, b, t))
  {
    assert Taken(states, steps, t - 1);
    if t - 1 > b {
      CallSoFar(states, steps, b, t - 1, i, op);
      if steps[t - 1].thread == i {
        CallMoves(states[t - 1], steps[t - 1], i, op, OwnChange(states, steps, i, b, t - 1));
      } else {
        OthersInCall(states[t - 1], steps[t - 1], i, op, OwnChange(states, steps, i, b, t - 1));
      }
    } else {
      assert OwnChange(states, steps, i, b, b) == 0;
    }
  }

  // In every run, whatever the other threads do meanwhile: a wait that returns has lowered the count
  // by one, a signal or a broadcast that returns has raised it by one.
  lemma {:induction false} CallCounts(states: seq<State>, steps: seq<Step>, b: nat, t: nat, i: nat, op: Op)
    requires Run(states, steps) && b + 1 < t < |states| && steps[b] == Call(i, op)
    requires forall u :: b < u < t ==> i < |states[u].threads| && !states[u].threads[i].Outside?
    requires i < |states[t].threads| && states[t].threads[i].Outside?
    ensures OwnChange(states, steps, i, b, t) == if op.CallWait? then -1 else 1
  {
    CallSoFar(states, steps, b, t - 1, i, op);
    assert Taken(states, steps, t - 1);
    var change := OwnChange(states, steps, i, b, t - 1);
    if steps[t - 1].thread == i {
      CallMoves(states[t - 1], steps[t - 1], i, op, change);
    } else {
      OthersInCall(states[t - 1], steps[t - 1], i, op, change);
    }
  }
}
