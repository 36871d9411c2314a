/**
 SockTransport::barrier of common/transport/socktransport.cc: n processes pass a
 token twice round a ring, and the barrier is used again and again.

 A process is a program counter inside barrier(); an edge of the ring is a count
 of tokens sent into a socket, and a process's semaphore is the count of tokens
 its update thread has delivered less those it has consumed.  A run is any
 interleaving of single steps.
 */
module RingBarrier {
  // Where a process is: outside barrier(), or before the named statement in it.
  datatype Pc = Outside | FirstWait | FirstSend | SecondWait | SecondSend

  datatype Proc = Proc(pc: Pc, entered: nat, left: nat, sent: nat, delivered: nat, consumed: nat)

  type Ring = r: seq<Proc> | |r| >= 1 witness [Proc(Outside, 0, 0, 0, 0, 0)]

  datatype Step = Enter(proc: nat) | Wait(proc: nat) | Send(proc: nat) | Deliver(proc: nat)

  // The process whose tokens reach process i, and the one that i sends to.
  function Prev(n: nat, i: nat): (p: nat)
    requires i < n
    ensures p < n
  {
    if i == 0 then n - 1 else i - 1
  }

  function Next(n: nat, i: nat): (p: nat)
    requires i < n
    ensures p < n && Prev(n, p) == i
  {
    if i == n - 1 then 0 else i + 1
  }

  lemma {:induction false} RingIndices(n: nat, i: nat)
    requires i < n
    ensures Next(n, i) == (i + 1) % n && Prev(n, i) == (i + n - 1) % n
  {
    if i == 0 {
      assert (i + n - 1) % n == n - 1;
    } else {
      assert (n + (i - 1)) % n == i - 1;
    }
    assert n % n == 0;
  }

  predicate Enabled(r: Ring, step: Step) {
    && step.proc < |r|
    && var p := r[step.proc];
       match step
       case Enter(_) => p.pc.Outside?
       case Wait(_) => (p.pc.FirstWait? || p.pc.SecondWait?) && p.consumed < p.delivered
       case Send(_) => p.pc.FirstSend? || p.pc.SecondSend?
       case Deliver(i) => p.delivered < r[Prev(|r|, i)].sent
  }

  function Leave(p: Proc): Proc {
    p.(pc := Outside, left := p.left + 1)
  }

  // Process i of n takes its next statement; a delivery is its update thread's.
  function Advance(n: nat, i: nat, p: Proc, step: Step): Proc
    requires i < n
  {
    match step
    case Enter(_) => p.(pc := if i != 0 then FirstWait else FirstSend, entered := p.entered + 1)
    case Wait(_) =>
      var q := p.(consumed := p.consumed + 1);
      if p.pc.FirstWait? then q.(pc := FirstSend)
      else if i != n - 1 then q.(pc := SecondSend) else Leave(q)
    case Send(_) =>
      var q := p.(sent := p.sent + 1);
      if p.pc.FirstSend? then q.(pc := SecondWait) else Leave(q)
    case Deliver(_) => p.(delivered := p.delivered + 1)
  }

  function Do(r: Ring, step: Step): (r': Ring)
    requires Enabled(r, step)
  {
    r[step.proc := Advance(|r|, step.proc, r[step.proc], step)]
  }

  predicate Init(r: Ring) {
    forall i :: 0 <= i < |r| ==> r[i] == Proc(Outside, 0, 0, 0, 0, 0)
  }

  // The state after each of the steps, all of them enabled when taken.
  predicate Run(states: seq<Ring>, steps: seq<Step>) {
    && |states| == |steps| + 1
    && forall t :: 0 <= t < |steps| ==> Taken(states, steps, t)
  }

  predicate Taken(states: seq<Ring>, steps: seq<Step>, t: nat)
    requires t < |steps| && |states| == |steps| + 1
  {
    Enabled(states[t], steps[t]) && states[t + 1] == Do(states[t], steps[t])
  }

  // ---------------------------------------------------------------- invariant

  // How many tokens process i has sent and consumed, from its place alone.
  function Sent(n: nat, i: nat, p: Proc): nat {
    (if i == n - 1 then p.left else 2 * p.left) + (if p.pc.SecondWait? || p.pc.SecondSend? then 1 else 0)
  }

  function Consumed(n: nat, i: nat, p: Proc): nat {
    (if i == 0 then p.left else 2 * p.left)
    + (if p.pc.SecondSend? then 1 else 0)
    + (if i != 0 && (p.pc.FirstSend? || p.pc.SecondWait? || p.pc.SecondSend?) then 1 else 0)
  }

  predicate Placed(n: nat, i: nat, p: Proc) {
    && p.entered == p.left + (if p.pc.Outside? then 0 else 1)
    && (p.pc.FirstWait? ==> i != 0) && (p.pc.SecondSend? ==> i != n - 1)
    && p.sent == Sent(n, i, p) && p.consumed == Consumed(n, i, p)
  }

  // Nobody consumes what was not delivered, and nothing is delivered that was not sent.
  predicate Sound(r: Ring, i: nat)
    requires i < |r|
  {
    Placed(|r|, i, r[i]) && r[i].consumed <= r[i].delivered <= r[Prev(|r|, i)].sent
  }

  predicate Inv(r: Ring) {
    forall i :: 0 <= i < |r| ==> Sound(r, i)
  }

  lemma {:induction false} StepKeepsInv(r: Ring, step: Step)
    requires Inv(r) && Enabled(r, step)
    ensures Inv(Do(r, step))
  {
    var r' := Do(r, step);
    forall i | 0 <= i < |r'| ensures Sound(r', i) {
      assert Sound(r, i) && Sound(r, Prev(|r|, i));
    }
  }

  lemma {:induction false} RunKeepsInv(states: seq<Ring>, steps: seq<Step>, t: nat)
    requires Run(states, steps) && Inv(states[0]) && t < |states|
    ensures Inv(states[t]) && |states[t]| == |states[0]|
  {
    if t > 0 {
      RunKeepsInv(states, steps, t - 1);
      assert Taken(states, steps, t - 1);
      StepKeepsInv(states[t - 1], steps[t - 1]);
    }
  }

  // ---------------------------------------------------------------- safety

  // A process that left its k-th barrier has every process before it leave k first.
  lemma {:induction false} LeftBefore(r: Ring, j: nat, k: nat)
    requires Inv(r) && j < |r| && r[j].left >= k
    ensures r[0].left >= k
    decreases j
  {
    assert Sound(r, j);
    if j > 0 {
      assert Sound(r, j - 1);
      LeftBefore(r, j - 1, k);
    }
  }

  // Process i has sent its first token of round k.
  predicate Passed(r: Ring, i: nat, k: nat)
    requires i < |r|
  {
    r[i].left >= k || (r[i].left == k - 1 && (r[i].pc.SecondWait? || r[i].pc.SecondSend?))
  }

  lemma {:induction false} PassedBefore(r: Ring, i: nat, j: nat, k: nat)
    requires Inv(r) && i <= j < |r| && k >= 1 && Passed(r, j, k)
    ensures Passed(r, i, k) && r[i].entered >= k
    decreases j
  {
    assert Sound(r, j);
    if i < j {
      assert Sound(r, j - 1);
      PassedBefore(r, i, j - 1, k);
    }
  }

  // Nobody returns from its k-th barrier before everybody has entered its k-th.
  lemma {:induction false} LeftMeansAllEntered(r: Ring, i: nat, j: nat, k: nat)
    requires Inv(r) && i < |r| && j < |r| && r[j].left >= k
    ensures r[i].entered >= k
  {
    if k >= 1 {
      LeftBefore(r, j, k);
      var n := |r|;
      assert Sound(r, 0) && Sound(r, n - 1);
      PassedBefore(r, i, n - 1, k);
    }
  }

  lemma {:induction false} Safety(states: seq<Ring>, steps: seq<Step>, t: nat, i: nat, j: nat)
    requires Run(states, steps) && Init(states[0]) && t < |states| && i < |states[t]| && j < |states[t]|
    ensures states[t][i].entered >= states[t][j].left
  {
    RunKeepsInv(states, steps, t);
    LeftMeansAllEntered(states[t], i, j, states[t][j].left);
  }

  // ---------------------------------------------------------------- conservation

  function TotalSent(r: seq<Proc>): nat {
    if r == [] then 0 else TotalSent(r[..|r| - 1]) + r[|r| - 1].sent
  }

  function TotalConsumed(r: seq<Proc>): nat {
    if r == [] then 0 else TotalConsumed(r[..|r| - 1]) + r[|r| - 1].consumed
  }

  // Everybody is outside after k rounds.
  predicate Quiet(r: Ring, k: nat) {
    forall i :: 0 <= i < |r| ==> r[i].pc.Outside? && r[i].left == k
  }

  lemma TwoMore(m: int, k: int)
    ensures 2 * (m + 1) * k == 2 * m * k + 2 * k
    ensures (2 * (m + 1) - 1) * k == (2 * m - 1) * k + 2 * k == 2 * m * k + k
  {}

  lemma {:induction false} QuietTotals(r: Ring, k: nat, m: nat)
    requires Inv(r) && Quiet(r, k) && 1 <= m <= |r|
    ensures TotalSent(r[..m]) == if m == |r| then (2 * m - 1) * k else 2 * m * k
    ensures TotalConsumed(r[..m]) == (2 * m - 1) * k
    decreases m
  {
    assert Sound(r, m - 1);
    assert r[..m][..m - 1] == r[..m - 1] && r[..m][m - 1] == r[m - 1];
    if m > 1 {
      QuietTotals(r, k, m - 1);
      TwoMore(m - 1, k);
    } else {
      assert r[..m][..0] == [];
    }
  }

  predicate Drained(r: Ring, i: nat)
    requires i < |r|
  {
    r[i].consumed == r[i].delivered == r[Prev(|r|, i)].sent
  }

  // A completed round has sent and consumed 2n - 1 tokens and left none behind.
  lemma {:induction false} Conservation(states: seq<Ring>, steps: seq<Step>, t: nat, k: nat)
    requires Run(states, steps) && Init(states[0]) && t < |states| && Quiet(states[t], k)
    ensures TotalSent(states[t]) == TotalConsumed(states[t]) == (2 * |states[t]| - 1) * k
    ensures forall i :: 0 <= i < |states[t]| ==> Drained(states[t], i)
  {
    var r := states[t];
    RunKeepsInv(states, steps, t);
    QuietTotals(r, k, |r|);
    assert r[..|r|] == r;
    forall i | 0 <= i < |r| ensures Drained(r, i) {
      assert Sound(r, i) && Sound(r, Prev(|r|, i));
    }
  }

  // ---------------------------------------------------------------- progress

  predicate AllEntered(r: Ring, k: nat) {
    forall i :: 0 <= i < |r| ==> r[i].entered >= k
  }

  predicate AllLeft(r: Ring, k: nat) {
    forall i :: 0 <= i < |r| ==> r[i].left >= k
  }

  // Nothing inside the barrier can move: no send is due, no token is under way
  // and every semaphore is empty where somebody waits.
  predicate Stuck(r: Ring) {
    forall i: nat :: i < |r| ==> !Enabled(r, Send(i)) && !Enabled(r, Deliver(i)) && !Enabled(r, Wait(i))
  }

  // In a stuck ring a first token that was sent has gone all the way round.
  lemma {:induction false} StuckFirstTrip(r: Ring, i: nat, k: nat)
    requires Inv(r) && Stuck(r) && k >= 1 && i < |r| && AllEntered(r, k)
    requires r[0].left == k - 1 && r[0].pc.SecondWait?
    ensures r[i].left == k - 1 && r[i].pc.SecondWait?
    decreases i
  {
    assert Sound(r, i);
    if i > 0 {
      StuckFirstTrip(r, i - 1, k);
      assert Sound(r, i - 1);
      assert !Enabled(r, Send(i)) && !Enabled(r, Deliver(i)) && !Enabled(r, Wait(i));
      assert Prev(|r|, i) == i - 1;
    }
  }

  lemma {:induction false} StuckSecondTrip(r: Ring, i: nat, k: nat)
    requires Inv(r) && Stuck(r) && k >= 1 && i < |r| && r[0].left >= k && AllEntered(r, k)
    ensures r[i].left >= k
    decreases i
  {
    if i > 0 {
      StuckSecondTrip(r, i - 1, k);
      assert Sound(r, i) && Sound(r, i - 1);
      assert !Enabled(r, Send(i)) && !Enabled(r, Deliver(i)) && !Enabled(r, Wait(i));
      assert Prev(|r|, i) == i - 1;
    }
  }

  // Once everybody has entered round k, something can move until everybody has left it.
  lemma {:induction false} NoDeadlock(r: Ring, k: nat)
    requires Inv(r) && AllEntered(r, k) && !AllLeft(r, k)
    ensures exists step: Step :: !step.Enter? && Enabled(r, step)
  {
    if Stuck(r) {
      var n := |r|;
      assert Sound(r, 0) && Sound(r, n - 1);
      assert !Enabled(r, Send(0)) && !Enabled(r, Deliver(0)) && !Enabled(r, Wait(0));
      if r[0].left < k {
        StuckFirstTrip(r, n - 1, k);
        assert false;
      }
      forall i | 0 <= i < n ensures r[i].left >= k {
        StuckSecondTrip(r, i, k);
      }
    } else {
      var i: nat :| i < |r| && (Enabled(r, Send(i)) || Enabled(r, Deliver(i)) || Enabled(r, Wait(i)));
      assert !Send(i).Enter? && !Deliver(i).Enter? && !Wait(i).Enter?;
    }
  }

  // What a process can still do before everybody has left round k: the rest of
  // its call, and one more entry.
  function Rest(p: Proc, k: nat): nat {
    (match p.pc
     case Outside => 0
     case FirstWait => 6
     case FirstSend => 5
     case SecondWait => 3
     case SecondSend => 2)
    + (if p.left < k || (p.left == k && p.pc.Outside?) then 7 else 0)
  }

  // Tokens under way into process i count too.
  function Work(r: Ring, k: nat, m: nat): (w: int)
    requires m <= |r|
  {
    if m == 0 then 0
    else Work(r, k, m - 1) + Rest(r[m - 1], k) + r[Prev(|r|, m - 1)].sent - r[m - 1].delivered
  }

  lemma {:induction false} WorkPositive(r: Ring, k: nat, m: nat)
    requires Inv(r) && m <= |r|
    ensures Work(r, k, m) >= 0
    decreases m
  {
    if m > 0 {
      WorkPositive(r, k, m - 1);
      assert Sound(r, m - 1);
    }
  }

  // How a step changes the work counted up to m: at its process, and at the
  // process after it when it sends.
  lemma {:induction false} WorkChange(r: Ring, step: Step, k: nat, m: nat)
    requires Enabled(r, step) && m <= |r|
    ensures var (i, p, q) := (step.proc, r[step.proc], Do(r, step)[step.proc]);
      Work(Do(r, step), k, m) - Work(r, k, m) ==
        (if i < m then Rest(q, k) - Rest(p, k) + p.delivered - q.delivered else 0)
        + (if Next(|r|, i) < m then q.sent - p.sent else 0)
    decreases m
  {
    if m > 0 {
      WorkChange(r, step, k, m - 1);
    }
  }

  // Every step whatever, further entries included, uses up work while somebody
  // is still in round k.
  lemma {:induction false} WorkDecreases(r: Ring, step: Step, k: nat)
    requires Inv(r) && AllEntered(r, k) && !AllLeft(r, k) && Enabled(r, step)
    ensures 0 <= Work(Do(r, step), k, |r|) < Work(r, k, |r|)
    ensures AllEntered(Do(r, step), k)
  {
    var n, i := |r|, step.proc;
    StepKeepsInv(r, step);
    WorkPositive(Do(r, step), k, n);
    WorkChange(r, step, k, n);
    assert Sound(r, i);
    var j: nat :| j < n && r[j].left < k;
    assert Sound(r, j);
    if r[i].left > k {
      LeftMeansAllEntered(r, j, i, k + 1);
    }
  }

  // However the run goes on from there, round k is over after a bounded number
  // of steps; by NoDeadlock it does not stop before.
  lemma {:induction false} RoundEnds(states: seq<Ring>, steps: seq<Step>, k: nat)
    requires Run(states, steps) && Inv(states[0]) && AllEntered(states[0], k)
    requires forall t :: 0 <= t < |steps| ==> !AllLeft(states[t], k)
    ensures |steps| <= Work(states[0], k, |states[0]|)
    ensures AllEntered(states[|steps|], k) && |states[|steps|]| == |states[0]|
    ensures Work(states[|steps|], k, |states[0]|) <= Work(states[0], k, |states[0]|) - |steps|
    decreases |steps|
  {
    var m := |steps|;
    RunKeepsInv(states, steps, m);
    if m > 0 {
      var (before, done) := (states[..m], steps[..m - 1]);
      assert Taken(states, steps, m - 1);
      forall t | 0 <= t < m - 1 ensures Taken(before, done, t) {
        assert Taken(states, steps, t);
      }
      RoundEnds(before, done, k);
      RunKeepsInv(states, steps, m - 1);
      WorkDecreases(states[m - 1], steps[m - 1], k);
    }
    WorkPositive(states[m], k, |states[0]|);
  }
}
