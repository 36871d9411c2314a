/**
 Barrier generations: when a barrier opens, for whom, and at what time.
 */
module SyncBarriers {
  import opened SyncModel
  import opened SyncHandlers
  import opened SyncProofs
  import opened SyncOwners
  import opened SyncRuns
  import opened SyncTheorems
  import opened SyncReplies

  // ---------------------------------------------------------------- arrival times

  // The latest clock among some cores.
  function Latest(clients: seq<Client>, list: seq<nat>): nat
    requires AllBelow(list, |clients|)
  {
    if list == [] then 0
    else
      var (t, rest) := (clients[list[|list| - 1]].clock, Latest(clients, list[..|list| - 1]));
      if t > rest then t else rest
  }

  lemma {:induction false} LatestBound(clients: seq<Client>, list: seq<nat>, i: nat)
    requires AllBelow(list, |clients|) && i < |list|
    ensures clients[list[i]].clock <= Latest(clients, list)
    decreases |list|
  {
    if i < |list| - 1 {
      assert list[..|list| - 1][i] == list[i];
      LatestBound(clients, list[..|list| - 1], i);
    }
  }

  lemma {:induction false} LatestSame(clients: seq<Client>, clients': seq<Client>, list: seq<nat>)
    requires AllBelow(list, |clients|) && |clients'| == |clients|
    requires forall i :: 0 <= i < |list| ==> clients'[list[i]].clock == clients[list[i]].clock
    ensures Latest(clients', list) == Latest(clients, list)
    decreases |list|
  {
    if list != [] {
      var rest := list[..|list| - 1];
      forall i | 0 <= i < |rest| ensures clients'[rest[i]].clock == clients[rest[i]].clock {
        assert rest[i] == list[i];
      }
      LatestSame(clients, clients', rest);
    }
  }

  // A barrier has fewer waiters than it is for, and knows when the latest of them came.
  predicate BarrierOk(clients: seq<Client>, b: Barrier) {
    b.waiting != [] ==> |b.waiting| < b.count && AllBelow(b.waiting, |clients|) && b.maxTime == Latest(clients, b.waiting)
  }

  predicate BarrierInv(s: State) {
    forall b :: 0 <= b < |s.barriers| ==> BarrierOk(s.clients, s.barriers[b])
  }

  // ---------------------------------------------------------------- the flags

  // The loop over the waiters stays within its flags if and only if all waiters are
  // on tiles that have one, and then all of them run again.
  lemma {:induction false} ResumesAll(clients: seq<Client>, q: seq<nat>, flags: seq<bool>)
    requires AllBelow(q, |clients|)
    requires forall d :: 0 <= d < |flags| && flags[d] ==> d < |clients| && clients[d] == Resumed(clients[d])
    ensures var r := ResumeTiles(clients, q, flags);
      (r.Some? <==> AllBelow(q, |flags|)) && (r.Some? ==> r.value == ResumedAll(clients, q))
    decreases |q|
  {
    if q != [] {
      var d := q[0];
      assert AllBelow(q, |flags|) <==> d < |flags| && AllBelow(q[1..], |flags|) by {
        assert q == [d] + q[1..];
      }
      if d < |flags| {
        if flags[d] {
          assert clients[d := Resumed(clients[d])] == clients;
          ResumesAll(clients, q[1..], flags);
        } else {
          ResumesAll(clients[d := Resumed(clients[d])], q[1..], flags[d := true]);
        }
      }
    }
  }

  // n different numbers below n are all of them.
  lemma {:induction false} AllThere(q: seq<nat>, d: nat)
    requires NoTwice(q) && AllBelow(q, |q|) && d < |q|
    ensures d in q
    decreases |q|
  {
    var n := |q| - 1;
    if n in q {
      var i :| 0 <= i < |q| && q[i] == n;
      var rest := q[..i] + q[i + 1..];
      if d < n {
        AllThere(rest, d);
        assert d in q;
      }
    } else {
      var rest := q[..n];
      AllThere(rest, q[n]);
      assert false;
    }
  }

  // For a generation, that is: it consists of the cores 0 to count - 1.
  lemma {:induction false} FlagsExact(clients: seq<Client>, w: seq<nat>)
    requires AllBelow(w, |clients|) && NoTwice(w)
    ensures ResumeTiles(clients, w, NoFlags(|w|)).Some? <==> forall d: nat :: d in w <==> d < |w|
  {
    ResumesAll(clients, w, NoFlags(|w|));
    if AllBelow(w, |w|) {
      forall d: nat ensures d in w <==> d < |w| {
        if d < |w| {
          AllThere(w, d);
        }
      }
    } else {
      var i :| 0 <= i < |w| && w[i] >= |w|;
      assert w[i] in w;
    }
  }

  // ---------------------------------------------------------------- releases

  lemma {:induction false} SendAllInbox(s: State, list: seq<nat>, reply: Reply, d: nat)
    requires AllBelow(list, |s.clients|) && NoTwice(list) && d < |s.clients|
    ensures SamePhases(s, SendAll(s, list, reply))
    ensures SendAll(s, list, reply).clients[d].inbox == if d in list then s.clients[d].inbox + [reply] else s.clients[d].inbox
    decreases |list|
  {
    if list != [] {
      FirstOut(list);
      assert list == [list[0]] + list[1..];
      SendAllInbox(Send(s, list[0], reply), list[1..], reply, d);
    }
  }

  lemma {:induction false} ReleaseInbox(s: State, b: nat, d: nat)
    requires b < |s.barriers| && QueueOk(s, InBarrier(b)) && d < |s.clients|
    ensures var r := Release(s, InBarrier(b));
      && |r.clients| == |s.clients| && r.clients[d].inbox == s.clients[d].inbox
      && r.barriers == s.barriers[b := s.barriers[b].(waiting := [])]
    decreases |Queue(s, InBarrier(b))|
  {
    if Queue(s, InBarrier(b)) != [] {
      var u := Unpark(s, InBarrier(b));
      ReleaseInbox(u, b, d);
      assert u.barriers[b := u.barriers[b].(waiting := [])] == s.barriers[b := s.barriers[b].(waiting := [])];
    } else {
      assert s.barriers[b := s.barriers[b].(waiting := [])] == s.barriers;
    }
  }

  // Opening a barrier: its waiters get one reply each, the others none.
  lemma {:induction false} OpenReplies(s: State, b: nat, d: nat)
    requires Inv(s, {}) && b < |s.barriers| && d < |s.clients|
    ensures QueueOk(s, InBarrier(b))
    ensures var (r, reply) := (Open(s, b), Timed(BARRIER_WAIT_RESPONSE, s.barriers[b].maxTime));
      && |r.clients| == |s.clients| && r.barriers == s.barriers[b := s.barriers[b].(waiting := [])]
      && r.clients[d].inbox == if d in s.barriers[b].waiting then s.clients[d].inbox + [reply] else s.clients[d].inbox
  {
    var (w, reply) := (s.barriers[b].waiting, Timed(BARRIER_WAIT_RESPONSE, s.barriers[b].maxTime));
    QueueIsOk(s, InBarrier(b), {});
    ReleaseInbox(s, b, d);
    var u := Release(s, InBarrier(b));
    SendAllInbox(u, w, reply, d);
    SendAllFrame(u, w, reply);
  }

  // The state in which the handler asks whether all have come.
  function Arrived(s: State, c: nat, b: nat): State
    requires c < |s.clients| && s.clients[c].phase.Sent? && b < |s.barriers|
  {
    Arrive(Accept(s, c), b, c, s.clients[c].clock)
  }

  lemma {:induction false} ArrivedKeeps(s: State, c: nat, b: nat) returns (r: State)
    requires Inv(s, {}) && BarrierInv(s) && c < |s.clients| && b < |s.barriers| && s.clients[c].phase == Sent(BarrierWait(b))
    ensures r == Arrived(s, c, b) && Inv(r, {}) && |r.clients| == |s.clients|
    ensures NoTwice(s.barriers[b].waiting + [c]) && AllBelow(s.barriers[b].waiting + [c], |s.clients|)
    ensures r.barriers == s.barriers[b := Barrier(s.barriers[b].count, s.barriers[b].waiting + [c],
                                                  Latest(s.clients, s.barriers[b].waiting + [c]))]
    ensures forall d :: 0 <= d < |s.clients| ==> r.clients[d].inbox == s.clients[d].inbox
  {
    var (a, t, w) := (Accept(s, c), s.clients[c].clock, s.barriers[b].waiting + [c]);
    SameQueues(s, a);
    AcceptKeepsInv(s, c);
    ArriveKeepsInv(a, b, c, t);
    r := Arrive(a, b, c, t);
    assert Queue(r, InBarrier(b)) == w;
    WaitersProper(r, b);
    ArrivalTime(s, c, b);
  }

  lemma {:induction false} WaitersProper(s: State, b: nat)
    requires Inv(s, {})
    ensures NoTwice(Queue(s, InBarrier(b))) && AllBelow(Queue(s, InBarrier(b)), |s.clients|)
  {
    assert PlaceOk(s.clients, InBarrier(b), QueuesOf(s)(InBarrier(b)));
  }

  // The handler, from there on.
  lemma {:induction false} HandlesBarrier(s: State, c: nat, b: nat, r: State)
    requires Ready(s) && c < |s.clients| && b < |s.barriers| && s.clients[c].phase == Sent(BarrierWait(b))
    requires Allowed(s, c, BarrierWait(b)) && r == Arrived(s, c, b) && QueueOk(r, InBarrier(b)) && b < |r.barriers|
    ensures Handle(s, c) == if |r.barriers[b].waiting| < r.barriers[b].count then r else Open(r, b)
  {
    SameQueues(s, Accept(s, c));
  }

  // The count-th arrival, and no other, releases exactly the cores of its
  // generation, and tells each the time of the latest arrival.  The loop that resumes
  // them stays within its flags if and only if they are the cores 0 to count - 1.
  lemma {:induction false} BarrierGeneration(s: State, c: nat, b: nat, d: nat)
    requires Global(s) && Ready(s) && BarrierInv(s) && c < |s.clients| && d < |s.clients| && b < |s.barriers|
    requires s.clients[c].phase == Sent(BarrierWait(b)) && Allowed(s, c, BarrierWait(b))
    ensures var (w, r) := (s.barriers[b].waiting + [c], Handle(s, c));
      && |r.clients| == |s.clients| == |Arrived(s, c, b).clients| && AllBelow(w, |s.clients|) && |w| <= s.barriers[b].count
      && (|w| < s.barriers[b].count ==>
            && r.barriers == s.barriers[b := Barrier(s.barriers[b].count, w, Latest(s.clients, w))]
            && r.clients[d].inbox == s.clients[d].inbox)
      && (|w| == s.barriers[b].count ==>
            && r.barriers == s.barriers[b := Barrier(s.barriers[b].count, [], Latest(s.clients, w))]
            && r.clients[d].inbox ==
                 (if d in w then s.clients[d].inbox + [Timed(BARRIER_WAIT_RESPONSE, Latest(s.clients, w))] else s.clients[d].inbox)
            && (ResumeTiles(Arrived(s, c, b).clients, w, NoFlags(|w|)).Some? <==> forall e: nat :: e in w <==> e < |w|))
  {
    var w := s.barriers[b].waiting + [c];
    var r := ArrivedKeeps(s, c, b);
    HandlesBarrier(s, c, b, r);
    if |w| == s.barriers[b].count {
      OpenReplies(r, b, d);
      FlagsExact(r.clients, w);
    }
  }

  // A caller sees it beforehand.
  lemma {:induction false} FlagsSeen(s: State, c: nat, b: nat)
    requires Inv(s, {}) && BarrierInv(s) && c < |s.clients| && b < |s.barriers| && s.clients[c].phase == Sent(BarrierWait(b))
    requires |s.barriers[b].waiting| + 1 == s.barriers[b].count
    ensures FlagsReach(s, c, BarrierWait(b)) <==>
      forall e: nat :: e in s.barriers[b].waiting + [c] <==> e < s.barriers[b].count
  {
    var w := s.barriers[b].waiting + [c];
    var r := ArrivedKeeps(s, c, b);
    FlagsExact(r.clients, w);
    ResumesAll(r.clients, w, NoFlags(|w|));
  }

  // The recorded time is that of the latest arrival.
  lemma {:induction false} ArrivalTime(s: State, c: nat, b: nat)
    requires BarrierInv(s) && c < |s.clients| && b < |s.barriers| && s.clients[c].phase.Sent?
    requires AllBelow(s.barriers[b].waiting + [c], |s.clients|)
    ensures Arrive(Accept(s, c), b, c, s.clients[c].clock).barriers[b] ==
      Barrier(s.barriers[b].count, s.barriers[b].waiting + [c], Latest(s.clients, s.barriers[b].waiting + [c]))
  {
    var w := s.barriers[b].waiting;
    assert BarrierOk(s.clients, s.barriers[b]);
    assert (w + [c])[..|w|] == w;
  }

  // ---------------------------------------------------------------- over all runs

  // Clocks of waiting cores do not move, and barriers stay.
  lemma {:induction false} SteadyBarriers(s: State, r: State)
    requires BarrierInv(s) && |r.clients| == |s.clients| && r.barriers == s.barriers
    requires forall b, i :: 0 <= b < |s.barriers| && 0 <= i < |s.barriers[b].waiting| && s.barriers[b].waiting[i] < |s.clients| ==>
      r.clients[s.barriers[b].waiting[i]].clock == s.clients[s.barriers[b].waiting[i]].clock
    ensures BarrierInv(r)
  {
    forall b | 0 <= b < |r.barriers| ensures BarrierOk(r.clients, r.barriers[b]) {
      assert BarrierOk(s.clients, s.barriers[b]);
      if s.barriers[b].waiting != [] {
        LatestSame(s.clients, r.clients, s.barriers[b].waiting);
      }
    }
  }

  lemma {:induction false} ServeKeepsBarriers(s: State, c: nat)
    requires Global(s) && Ready(s) && BarrierInv(s) && c < |s.clients| && s.clients[c].phase.Sent?
    requires Allowed(s, c, s.clients[c].phase.call)
    ensures BarrierInv(Handle(s, c))
  {
    var (call, r) := (s.clients[c].phase.call, Handle(s, c));
    HandleSteady(s, c);
    if call.BarrierWait? {
      BarrierGeneration(s, c, call.barrier, c);
      forall b | 0 <= b < |r.barriers| ensures BarrierOk(r.clients, r.barriers[b]) {
        assert BarrierOk(s.clients, s.barriers[b]);
        if r.barriers[b].waiting != [] {
          LatestSame(s.clients, r.clients, r.barriers[b].waiting);
        }
      }
    } else if call.BarrierInit? {
      forall b | 0 <= b < |r.barriers| ensures BarrierOk(r.clients, r.barriers[b]) {
        if b < |s.barriers| && s.barriers[b].waiting != [] {
          assert BarrierOk(s.clients, s.barriers[b]);
          LatestSame(s.clients, r.clients, r.barriers[b].waiting);
        }
      }
    } else {
      SteadyBarriers(s, r);
    }
  }

  lemma {:induction false} StepKeepsBarriers(s: State, step: Step)
    requires Global(s) && BarrierInv(s) && Enabled(s, step)
    ensures BarrierInv(Do(s, step))
  {
    if step.Serve? {
      ServeKeepsBarriers(s, step.core);
    } else {
      assert CoreOk(s.clients, QueuesOf(s), step.core, {});
      forall b | 0 <= b < |s.barriers| ensures step.core !in s.barriers[b].waiting {
        NotQueued(s, step.core, InBarrier(b));
      }
      SteadyBarriers(s, Do(s, step));
    }
  }

  // In every run, barriers record what BarrierGeneration needs.
  lemma {:induction false} RunKeepsBarriers(states: seq<State>, steps: seq<Step>, n: nat, i: nat)
    requires Run(states, steps) && Init(states[0], n) && i < |states|
    ensures Global(states[i]) && BarrierInv(states[i])
  {
    RunKeepsGlobal(states, steps, n, i);
    if i > 0 {
      RunKeepsBarriers(states, steps, n, i - 1);
      assert Taken(states, steps, i - 1);
      StepKeepsBarriers(states[i - 1], steps[i - 1]);
    }
  }

  // ---------------------------------------------------------------- the clocks of a generation

  // A core of the generation is not yet told, and is or will be blocked.
  lemma {:induction false} BeforeRelease(s: State, c: nat, b: nat, d: nat)
    requires Inv(s, {}) && c < |s.clients| && b < |s.barriers| && s.clients[c].phase == Sent(BarrierWait(b))
    requires d in s.barriers[b].waiting + [c]
    ensures d < |s.clients| && s.clients[d].inbox == [] && Accept(s, c).clients[d].phase.Blocked?
    ensures Accept(s, c).clients[d].clock == s.clients[d].clock && Accept(s, c).clients[d].inbox == []
  {
    WaitersProper(s, b);
    assert CoreOk(s.clients, QueuesOf(s), d, {});
    if d != c {
      assert PlaceOk(s.clients, InBarrier(b), QueuesOf(s)(InBarrier(b)));
    }
  }

  // After the release, each core of the generation is blocked with the one reply,
  // and its clock has not moved since it arrived.
  lemma {:induction false} AfterRelease(s: State, c: nat, b: nat, d: nat) returns (r: State)
    requires Global(s) && Ready(s) && BarrierInv(s) && c < |s.clients| && b < |s.barriers|
    requires s.clients[c].phase == Sent(BarrierWait(b)) && Allowed(s, c, BarrierWait(b))
    requires |s.barriers[b].waiting| + 1 == s.barriers[b].count && d in s.barriers[b].waiting + [c]
    ensures r == Handle(s, c) && AllBelow(s.barriers[b].waiting + [c], |s.clients|) && d < |s.clients| == |r.clients|
    ensures r.clients[d].phase.Blocked? && r.clients[d].clock == s.clients[d].clock
    ensures r.clients[d].inbox == [Timed(BARRIER_WAIT_RESPONSE, Latest(s.clients, s.barriers[b].waiting + [c]))]
  {
    BeforeRelease(s, c, b, d);
    BarrierGeneration(s, c, b, d);
    r := HandleBarrierKept(s, c, b, d);
  }

  lemma {:induction false} HandleBarrierKept(s: State, c: nat, b: nat, d: nat) returns (r: State)
    requires Ready(s) && c < |s.clients| && b < |s.barriers| && d < |s.clients|
    requires s.clients[c].phase == Sent(BarrierWait(b)) && Allowed(s, c, BarrierWait(b))
    ensures r == Handle(s, c) && Kept(Accept(s, c), r, d)
  {
    var a := Accept(s, c);
    SameQueues(s, a);
    BarrierWaitKept(a, c, b, s.clients[c].clock, d);
    r := DoBarrierWait(a, c, b, s.clients[c].clock);
  }

  // In every run: once a core of a generation has received its reply, its clock is
  // at the latest arrival time of the generation.
  lemma {:induction false} ReleasedClock(states: seq<State>, steps: seq<Step>, n: nat, i: nat, j: nat, c: nat, b: nat, d: nat)
    requires Run(states, steps) && Init(states[0], n) && i < j < |steps|
    requires steps[i] == Serve(c) && c < |states[i].clients| && states[i].clients[c].phase == Sent(BarrierWait(b))
    requires b < |states[i].barriers| && |states[i].barriers[b].waiting| + 1 == states[i].barriers[b].count
    requires d in states[i].barriers[b].waiting + [c] && steps[j] == Receive(d)
    requires forall k :: i < k < j ==> steps[k] != Receive(d)
    ensures AllBelow(states[i].barriers[b].waiting + [c], |states[i].clients|) && d < |states[j + 1].clients|
    ensures states[j + 1].clients[d].clock == Latest(states[i].clients, states[i].barriers[b].waiting + [c])
  {
    var w := states[i].barriers[b].waiting + [c];
    RunKeepsBarriers(states, steps, n, i);
    assert Taken(states, steps, i) && Taken(states, steps, j);
    var _ := AfterRelease(states[i], c, b, d);
    ReplyArrives(states, steps, n, i + 1, j, d);
    var k :| 0 <= k < |w| && w[k] == d;
    LatestBound(states[i].clients, w, k);
  }
}
