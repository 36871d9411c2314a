/**
 The packet transport of common/transport/socktransport.cc: packets are framed
 onto one byte stream per pair of processes, and the update thread splits the
 streams again and sorts the packets into buffer lists by tag.
 */
module Framing {
  newtype Byte = x: int | 0 <= x < 0x100

  const GLOBAL_TAG := -1
  const BARRIER_TAG := -2
  const TERMINATE_TAG := -3

  datatype Packet = Packet(tag: int, data: seq<Byte>)

  // A packet and the process it came from.
  datatype Delivery = Delivery(source: nat, packet: Packet)

  datatype ThreadState = Running | Exiting

  // ---------------------------------------------------------------- frames

  // A 32-bit word in memory, low byte first.
  function Word(x: int): (b: seq<Byte>)
    requires 0 <= x < 0x1_0000_0000
    ensures |b| == 4
  {
    [(x % 0x100) as Byte, (x / 0x100 % 0x100) as Byte, (x / 0x1_0000 % 0x100) as Byte, (x / 0x100_0000) as Byte]
  }

  function UInt32(b: seq<Byte>): (x: int)
    requires |b| == 4
    ensures 0 <= x < 0x1_0000_0000
  {
    b[0] as int + b[1] as int * 0x100 + b[2] as int * 0x1_0000 + b[3] as int * 0x100_0000
  }

  function SInt32(b: seq<Byte>): int
    requires |b| == 4
  {
    var x := UInt32(b);
    if x < 0x8000_0000 then x else x - 0x1_0000_0000
  }

  function TagWord(tag: int): (b: seq<Byte>)
    requires -0x8000_0000 <= tag < 0x8000_0000
    ensures |b| == 4
  {
    Word(if tag < 0 then tag + 0x1_0000_0000 else tag)
  }

  // Packets that can be framed, and whose frame can be received: an empty one
  // would keep Socket::recv polling for ever.
  predicate Sendable(p: Packet) {
    1 <= |p.data| < 0x1_0000_0000 && -0x8000_0000 <= p.tag < 0x8000_0000
  }

  function Frame(p: Packet): seq<Byte>
    requires Sendable(p)
  {
    Word(|p.data|) + TagWord(p.tag) + p.data
  }

  predicate AllSendable(ps: seq<Packet>) {
    forall k :: 0 <= k < |ps| ==> Sendable(ps[k])
  }

  function Frames(ps: seq<Packet>): seq<Byte>
    requires AllSendable(ps)
  {
    if ps == [] then [] else Frame(ps[0]) + Frames(ps[1..])
  }

  lemma {:induction false} WordRoundTrip(x: int)
    requires 0 <= x < 0x1_0000_0000
    ensures UInt32(Word(x)) == x
  {
    assert x / 0x1_0000 == x / 0x100 / 0x100 && x / 0x100_0000 == x / 0x1_0000 / 0x100;
  }

  lemma {:induction false} TagRoundTrip(tag: int)
    requires -0x8000_0000 <= tag < 0x8000_0000
    ensures SInt32(TagWord(tag)) == tag
  {
    WordRoundTrip(if tag < 0 then tag + 0x1_0000_0000 else tag);
  }

  // The first frame of a stream, field by field.
  lemma {:induction false} FirstFrame(ps: seq<Packet>)
    requires AllSendable(ps) && ps != []
    ensures var (s, n) := (Frames(ps), |ps[0].data|);
      && |s| >= 8 + n
      && UInt32(s[..4]) == n && SInt32(s[4..][..4]) == ps[0].tag
      && s[4..][4..][..n] == ps[0].data && s[4..][4..][n..] == Frames(ps[1..])
  {
    var (s, n, p) := (Frames(ps), |ps[0].data|, ps[0]);
    WordRoundTrip(n);
    TagRoundTrip(p.tag);
    assert s == Word(n) + (TagWord(p.tag) + (p.data + Frames(ps[1..])));
    assert s[..4] == Word(n) && s[4..] == TagWord(p.tag) + (p.data + Frames(ps[1..]));
    assert s[4..][..4] == TagWord(p.tag) && s[4..][4..] == p.data + Frames(ps[1..]);
  }

  // Sending one more packet appends its frame.
  lemma {:induction false} FramesAppend(ps: seq<Packet>, p: Packet)
    requires AllSendable(ps) && Sendable(p)
    ensures Frames(ps + [p]) == Frames(ps) + Frame(p)
    decreases |ps|
  {
    if ps == [] {
      assert [p][1..] == [] && ps + [p] == [p];
    } else {
      assert (ps + [p])[1..] == ps[1..] + [p];
      FramesAppend(ps[1..], p);
    }
  }

  // ---------------------------------------------------------------- what was delivered

  // The packets of one source, in the order they were delivered.
  function From(log: seq<Delivery>, source: nat): seq<Packet> {
    if log == [] then []
    else
      var (rest, last) := (log[..|log| - 1], log[|log| - 1]);
      if last.source == source then From(rest, source) + [last.packet] else From(rest, source)
  }

  // The list a tag belongs to.
  function ListIndex(tag: int, lists: nat): int {
    if tag == GLOBAL_TAG then lists - 1 else tag
  }

  // The entries of one buffer list, with their sources.
  function Entries(log: seq<Delivery>, list: int, lists: nat): seq<Delivery> {
    if log == [] then []
    else
      var (rest, last) := (log[..|log| - 1], log[|log| - 1]);
      if ListIndex(last.packet.tag, lists) == list then Entries(rest, list, lists) + [last]
      else Entries(rest, list, lists)
  }

  function Buffers(ds: seq<Delivery>): (r: seq<seq<Byte>>)
    ensures |r| == |ds|
  {
    if ds == [] then [] else Buffers(ds[..|ds| - 1]) + [ds[|ds| - 1].packet.data]
  }

  // The packets that go to one list, in order.
  function ForList(ps: seq<Packet>, list: int, lists: nat): seq<Packet> {
    if ps == [] then []
    else
      var (rest, last) := (ps[..|ps| - 1], ps[|ps| - 1]);
      if ListIndex(last.tag, lists) == list then ForList(rest, list, lists) + [last] else ForList(rest, list, lists)
  }

  function Tokens(log: seq<Delivery>): nat {
    if log == [] then 0 else Tokens(log[..|log| - 1]) + (if log[|log| - 1].packet.tag == BARRIER_TAG then 1 else 0)
  }

  // One delivery more.
  lemma {:induction false} Logged(log: seq<Delivery>, d: Delivery)
    ensures forall i :: From(log + [d], i) == if d.source == i then From(log, i) + [d.packet] else From(log, i)
    ensures forall k, n ::
      Entries(log + [d], k, n) == if ListIndex(d.packet.tag, n) == k then Entries(log, k, n) + [d] else Entries(log, k, n)
    ensures Tokens(log + [d]) == Tokens(log) + (if d.packet.tag == BARRIER_TAG then 1 else 0)
  {
    assert (log + [d])[..|log|] == log;
  }

  lemma {:induction false} Buffered(ds: seq<Delivery>, d: Delivery)
    ensures Buffers(ds + [d]) == Buffers(ds) + [d.packet.data]
  {
    assert (ds + [d])[..|ds|] == ds;
  }

  // In each buffer list every source's packets stand in the order they were sent.
  lemma {:induction false} ListKeepsOrder(log: seq<Delivery>, source: nat, list: int, lists: nat)
    ensures From(Entries(log, list, lists), source) == ForList(From(log, source), list, lists)
    decreases |log|
  {
    if log != [] {
      var (rest, d) := (log[..|log| - 1], log[|log| - 1]);
      ListKeepsOrder(rest, source, list, lists);
      if ListIndex(d.packet.tag, lists) == list {
        Logged(Entries(rest, list, lists), d);
      }
      if d.source == source {
        ForListAppend(From(rest, source), d.packet, list, lists);
      }
    }
  }

  // So are the first k of them, which is what k receptions get: each source's packets
  // for the list, from the first on, in the order sent.
  lemma {:induction false} ReceivedInOrder(log: seq<Delivery>, source: nat, list: int, lists: nat, k: nat)
    requires k <= |Entries(log, list, lists)|
    ensures From(Entries(log, list, lists)[..k], source) <= ForList(From(log, source), list, lists)
    ensures Buffers(Entries(log, list, lists)[..k]) == Buffers(Entries(log, list, lists))[..k]
  {
    ListKeepsOrder(log, source, list, lists);
    FirstOfSource(Entries(log, list, lists), source, k);
  }

  lemma {:induction false} FirstOfSource(ds: seq<Delivery>, source: nat, k: nat)
    requires k <= |ds|
    ensures From(ds[..k], source) <= From(ds, source)
    ensures Buffers(ds[..k]) == Buffers(ds)[..k]
    decreases |ds|
  {
    if k < |ds| {
      var rest := ds[..|ds| - 1];
      assert rest[..k] == ds[..k];
      FirstOfSource(rest, source, k);
    } else {
      assert ds[..k] == ds;
      if ds != [] {
        FirstOfSource(ds[..|ds| - 1], source, |ds| - 1);
      }
    }
  }

  lemma {:induction false} ForListAppend(ps: seq<Packet>, p: Packet, list: int, lists: nat)
    ensures ForList(ps + [p], list, lists) ==
      if ListIndex(p.tag, lists) == list then ForList(ps, list, lists) + [p] else ForList(ps, list, lists)
  {
    assert (ps + [p])[..|ps|] == ps;
  }

  // List t of n holds the delivered packets of its tag that were not taken, and one signal
  // or one receiver that has used it for each.
  predicate Listed(t: nat, n: nat, list: seq<seq<Byte>>, signals: nat, claims: nat, taken: nat, log: seq<Delivery>) {
    var all := Buffers(Entries(log, t, n));
    taken <= |all| && list == all[taken..] && signals + claims == |list|
  }

  lemma {:induction false} ListedMore(t: nat, n: nat, list: seq<seq<Byte>>, signals: nat, claims: nat, taken: nat,
                                      log: seq<Delivery>, d: Delivery)
    requires Listed(t, n, list, signals, claims, taken, log)
    ensures if ListIndex(d.packet.tag, n) == t
            then Listed(t, n, list + [d.packet.data], signals + 1, claims, taken, log + [d])
            else Listed(t, n, list, signals, claims, taken, log + [d])
  {
    Logged(log, d);
    Buffered(Entries(log, t, n), d);
  }

  predicate AllListed(n: nat, lists: seq<seq<seq<Byte>>>, signals: seq<nat>, claims: seq<nat>, taken: seq<nat>, log: seq<Delivery>) {
    && |lists| == |signals| == |claims| == |taken| == n
    && forall t :: 0 <= t < n ==> Listed(t, n, lists[t], signals[t], claims[t], taken[t], log)
  }

  // A delivery goes to its list, or to none.
  lemma {:induction false} AllListedMore(n: nat, lists: seq<seq<seq<Byte>>>, signals: seq<nat>, claims: seq<nat>, taken: seq<nat>,
                                         log: seq<Delivery>, d: Delivery)
    requires AllListed(n, lists, signals, claims, taken, log)
    ensures var i := ListIndex(d.packet.tag, n);
      if 0 <= i < n then AllListed(n, lists[i := lists[i] + [d.packet.data]], signals[i := signals[i] + 1], claims, taken, log + [d])
      else AllListed(n, lists, signals, claims, taken, log + [d])
  {
    forall t | 0 <= t < n
      ensures if ListIndex(d.packet.tag, n) == t
              then Listed(t, n, lists[t] + [d.packet.data], signals[t] + 1, claims[t], taken[t], log + [d])
              else Listed(t, n, lists[t], signals[t], claims[t], taken[t], log + [d]) {
      ListedMore(t, n, lists[t], signals[t], claims[t], taken[t], log, d);
    }
  }

  // ---------------------------------------------------------------- the transport of one process

  class SockTransport {
    const numProcs: nat
    const procIndex: nat
    const numLists: nat
    // The kernel's side: bytes that the peers have sent and that were not received yet, and how
    // many more polls will find nothing of them.
    var pending: seq<seq<Byte>>
    var quiet: nat
    // Bytes written to the socket of each process.
    var outgoing: seq<seq<Byte>>
    var bufferLists: seq<seq<seq<Byte>>>
    // The counts of m_buffer_list_sems, and how often m_barrier_sem was signalled.
    var listSignals: seq<nat>
    var barrierSignals: nat
    var updateThreadState: ThreadState
    // Packets sent and not received, for each peer; all packets delivered so far.
    ghost var todo: seq<seq<Packet>>
    ghost var log: seq<Delivery>
    // How many polls found nothing although bytes were under way.
    ghost var missed: nat
    // For each list, the receivers that have waited for it and not yet taken, and the buffers taken.
    ghost var claims: seq<nat>
    ghost var taken: seq<nat>

    constructor (numProcs: nat, procIndex: nat, numLists: nat)
      requires procIndex < numProcs && numLists >= 1
      ensures Valid() && log == [] && todo == seq(numProcs, _ => []) && outgoing == seq(numProcs, _ => []) && updateThreadState == Running
      ensures this.numProcs == numProcs && this.procIndex == procIndex && this.numLists == numLists
    {
      this.numProcs, this.procIndex, this.numLists := numProcs, procIndex, numLists;
      pending, quiet, outgoing := seq(numProcs, _ => []), 0, seq(numProcs, _ => []);
      bufferLists, listSignals, barrierSignals := seq(numLists, _ => []), seq(numLists, _ => 0), 0;
      updateThreadState := Running;
      todo, log, missed := seq(numProcs, _ => []), [], 0;
      claims, taken := seq(numLists, _ => 0), seq(numLists, _ => 0);
    }

    // What the assertions of updateBufferLists demand of a packet from process i.
    ghost predicate Expected(i: nat, p: Packet)
      requires numProcs > 0
    {
      && Sendable(p)
      && (p.tag == BARRIER_TAG ==> i == (procIndex + numProcs - 1) % numProcs)
      && (p.tag == TERMINATE_TAG ==> i == procIndex)
      && (p.tag != BARRIER_TAG && p.tag != TERMINATE_TAG ==> 0 <= ListIndex(p.tag, numLists) < numLists)
    }

    // The pending bytes of process i are the frames of the packets it sent.
    ghost predicate Streams(i: nat, bytes: seq<Byte>, ps: seq<Packet>)
      requires numProcs > 0
    {
      && (forall k :: 0 <= k < |ps| ==> Expected(i, ps[k]))
      && bytes == Frames(ps)
    }

    ghost predicate Valid()
      reads this
    {
      && procIndex < numProcs && numLists >= 1
      && |pending| == |todo| == |outgoing| == numProcs && AllListed(numLists, bufferLists, listSignals, claims, taken, log)
      && (forall i :: 0 <= i < numProcs ==> Streams(i, pending[i], todo[i]))
      && barrierSignals == Tokens(log)
    }

    // ::recv: some of the bytes that wait, at most `length`; -1 is a poll that finds nothing.
    method OsRecv(i: nat, length: nat, block: bool) returns (recvd: int, chunk: seq<Byte>)
      requires i < |pending| && length >= 1 && (block ==> pending[i] != [])
      modifies `pending, `quiet, `missed
      ensures recvd == -1 || 1 <= recvd <= length
      ensures recvd == -1 ==> !block && chunk == [] && pending == old(pending)
      ensures missed >= old(missed)
      ensures recvd == -1 ==> pending[i] == [] || (quiet < old(quiet) && missed > old(missed))
      ensures recvd >= 1 ==> recvd <= |old(pending)[i]| && chunk == old(pending)[i][..recvd]
      ensures recvd >= 1 ==> pending == old(pending)[i := old(pending)[i][recvd..]]
    {
      if pending[i] == [] {
        return -1, [];
      } else if !block && quiet > 0 {
        quiet, missed := quiet - 1, missed + 1;
        return -1, [];
      }
      recvd :| 1 <= recvd <= length && recvd <= |pending[i]|;
      chunk := pending[i][..recvd];
      pending, quiet := pending[i := pending[i][recvd..]], *;
    }

    // Socket::recv: all of `length` bytes, or none when nothing is there and the caller does not want to wait.
    method Recv(i: nat, length: nat, block: bool) returns (ok: bool, buffer: seq<Byte>)
      requires i < |pending| && length >= 1
      requires length <= |pending[i]| || (!block && pending[i] == [])
      modifies `pending, `quiet, `missed
      ensures block ==> ok
      ensures ok ==> length <= |old(pending)[i]| && buffer == old(pending)[i][..length]
      ensures ok ==> pending == old(pending)[i := old(pending)[i][length..]]
      ensures !ok ==> pending == old(pending)
      ensures missed >= old(missed) && (!ok ==> pending[i] == [] || missed > old(missed))
    {
      ghost var before := pending;
      while true
        invariant pending == before && missed >= old(missed)
        decreases quiet
      {
        var recvd, chunk := OsRecv(i, length, false);
        if recvd >= 1 {
          buffer := chunk;
          while |buffer| < length
            invariant 1 <= |buffer| <= length && buffer == before[i][..|buffer|]
            invariant pending == before[i := before[i][|buffer|..]] && missed >= old(missed)
            decreases length - |buffer|
          {
            recvd, chunk := OsRecv(i, length - |buffer|, true);
            buffer := buffer + chunk;
          }
          return true, buffer;
        } else if !block {
          return false, [];
        }
      }
    }

    // insertInBufferList
    method InsertInBufferList(source: nat, tag: int, buffer: seq<Byte>)
      requires Valid() && 0 <= ListIndex(tag, numLists) < numLists && tag != BARRIER_TAG
      modifies `bufferLists, `listSignals, `log
      ensures Valid() && log == old(log) + [Delivery(source, Packet(tag, buffer))]
    {
      var list := if tag == GLOBAL_TAG then numLists - 1 else tag;
      bufferLists := bufferLists[list := bufferLists[list] + [buffer]];
      listSignals := listSignals[list := listSignals[list] + 1];
      ghost var d := Delivery(source, Packet(tag, buffer));
      Logged(log, d);
      AllListedMore(numLists, old(bufferLists), old(listSignals), claims, taken, log, d);
      log := log + [d];
    }

    // SockNode::recv up to the lock: the wait goes through when the semaphore's count is positive.
    method AwaitBuffer(tag: int)
      requires Valid() && 0 <= ListIndex(tag, numLists) < numLists && listSignals[ListIndex(tag, numLists)] > 0
      modifies `listSignals, `claims
      ensures var t := ListIndex(tag, numLists); Valid() && claims == old(claims)[t := old(claims)[t] + 1]
    {
      var t := if tag == GLOBAL_TAG then numLists - 1 else tag;
      assert Listed(t, numLists, bufferLists[t], listSignals[t], claims[t], taken[t], log);
      listSignals, claims := listSignals[t := listSignals[t] - 1], claims[t := claims[t] + 1];
    }

    // The rest of SockNode::recv, whatever happened since: the list is not empty, as the
    // source asserts, and the buffer is the oldest delivered to it that was not taken.
    method TakeBuffer(tag: int) returns (buffer: seq<Byte>)
      requires Valid() && 0 <= ListIndex(tag, numLists) < numLists && claims[ListIndex(tag, numLists)] > 0
      modifies `bufferLists, `claims, `taken
      ensures Valid() && old(bufferLists[ListIndex(tag, numLists)]) != []
      ensures var t := ListIndex(tag, numLists);
        && bufferLists == old(bufferLists)[t := old(bufferLists)[t][1..]]
        && taken == old(taken)[t := old(taken)[t] + 1] && claims == old(claims)[t := old(claims)[t] - 1]
        && old(taken)[t] < |Buffers(Entries(log, t, numLists))| && buffer == Buffers(Entries(log, t, numLists))[old(taken)[t]]
    {
      var t := if tag == GLOBAL_TAG then numLists - 1 else tag;
      assert Listed(t, numLists, bufferLists[t], listSignals[t], claims[t], taken[t], log);
      buffer := bufferLists[t][0];
      bufferLists := bufferLists[t := bufferLists[t][1..]];
      claims, taken := claims[t := claims[t] - 1], taken[t := taken[t] + 1];
    }

    // One packet of process i taken off its stream, after its length field.
    method ReceivePacket(i: nat, length: nat) returns (tag: int, buffer: seq<Byte>)
      requires |pending| == |todo| == numProcs && i < numProcs && todo[i] != [] && AllSendable(todo[i])
      requires pending[i] == Frames(todo[i])[4..] && length == |todo[i][0].data|
      modifies `pending, `quiet, `missed
      ensures Packet(tag, buffer) == todo[i][0] && missed >= old(missed)
      ensures pending == old(pending)[i := Frames(todo[i][1..])]
    {
      FirstFrame(todo[i]);
      var _, word := Recv(i, 4, true);
      tag := SInt32(word);
      var _, data := Recv(i, length, true);
      buffer := data;
    }

    // updateBufferLists: whatever the chunks in which the bytes come, the packets
    // that are taken are the oldest ones of their source, each whole and once.
    method UpdateBufferLists()
      requires Valid() && updateThreadState == Running
      modifies this
      ensures Valid() && old(log) <= log
      ensures forall i :: 0 <= i < numProcs ==> From(log, i) + todo[i] == old(From(log, i) + todo[i])
      ensures updateThreadState == Running && missed == old(missed) ==> forall i :: 0 <= i < numProcs ==> todo[i] == []
      ensures updateThreadState == Exiting ==> log != [] && log[|log| - 1].packet.tag == TERMINATE_TAG
    {
      for i := 0 to numProcs
        invariant Valid() && old(log) <= log && updateThreadState == Running && missed >= old(missed)
        invariant forall j :: 0 <= j < numProcs ==> From(log, j) + todo[j] == old(From(log, j) + todo[j])
        invariant missed == old(missed) ==> forall j :: 0 <= j < i ==> todo[j] == []
      {
        var exiting := DrainStream(i);
        if exiting {
          updateThreadState := Exiting;
          return;
        }
      }
    }

    // The inner loop of updateBufferLists: packets of process i until none is there or the quit message came.
    method DrainStream(i: nat) returns (exiting: bool)
      requires Valid() && i < numProcs
      modifies `pending, `quiet, `missed, `bufferLists, `listSignals, `barrierSignals, `todo, `log
      ensures Valid() && old(log) <= log && missed >= old(missed)
      ensures forall j :: 0 <= j < numProcs ==> From(log, j) + todo[j] == old(From(log, j) + todo[j])
      ensures forall j :: 0 <= j < numProcs && j != i ==> todo[j] == old(todo[j])
      ensures exiting ==> log != [] && log[|log| - 1].packet.tag == TERMINATE_TAG
      ensures !exiting && missed == old(missed) ==> todo[i] == []
    {
      while true
        invariant Valid() && old(log) <= log && missed >= old(missed)
        invariant forall j :: 0 <= j < numProcs ==> From(log, j) + todo[j] == old(From(log, j) + todo[j])
        invariant forall j :: 0 <= j < numProcs && j != i ==> todo[j] == old(todo[j])
        decreases |todo[i]|
      {
        var more, tag := DrainOne(i);
        if !more {
          return false;
        }
        if tag == TERMINATE_TAG {
          return true;
        }
      }
    }

    // One turn of the inner loop.
    method DrainOne(i: nat) returns (more: bool, tag: int)
      requires Valid() && i < numProcs
      modifies `pending, `quiet, `missed, `bufferLists, `listSignals, `barrierSignals, `todo, `log
      ensures Valid() && missed >= old(missed)
      ensures !more ==> todo == old(todo) && log == old(log) && (todo[i] == [] || missed > old(missed))
      ensures more ==> old(todo[i]) != [] && todo == old(todo)[i := old(todo[i][1..])]
      ensures more ==> log == old(log) + [Delivery(i, old(todo[i][0]))] && tag == old(todo[i][0].tag)
    {
      assert Streams(i, pending[i], todo[i]);
      if todo[i] != [] {
        FirstFrame(todo[i]);
      }
      var got, word := Recv(i, 4, false);
      if !got {
        return false, 0;
      }
      var buffer;
      tag, buffer := ReceivePacket(i, UInt32(word));
      assert Expected(i, todo[i][0]);
      todo := todo[i := todo[i][1..]];
      Dispatch(i, tag, buffer);
      more := true;
    }

    // The switch on the tag.
    method Dispatch(i: nat, tag: int, buffer: seq<Byte>)
      requires Valid() && Expected(i, Packet(tag, buffer))
      modifies `bufferLists, `listSignals, `barrierSignals, `log
      ensures Valid() && log == old(log) + [Delivery(i, Packet(tag, buffer))]
    {
      if tag == TERMINATE_TAG || tag == BARRIER_TAG {
        Logged(log, Delivery(i, Packet(tag, buffer)));
        AllListedMore(numLists, bufferLists, listSignals, claims, taken, log, Delivery(i, Packet(tag, buffer)));
        if tag == BARRIER_TAG {
          barrierSignals := barrierSignals + 1;
        }
        log := log + [Delivery(i, Packet(tag, buffer))];
      } else {
        InsertInBufferList(i, tag, buffer);
      }
    }

    // SockNode::send: a packet for the own process goes into its list at once, any
    // other one as a whole frame onto the stream.
    method Send(dest: nat, tag: int, data: seq<Byte>)
      requires Valid() && dest < numProcs && tag != BARRIER_TAG && 0 <= ListIndex(tag, numLists) < numLists
      requires dest != procIndex ==> Sendable(Packet(tag, data))
      modifies `bufferLists, `listSignals, `log, `outgoing
      ensures Valid()
      ensures dest == procIndex ==> log == old(log) + [Delivery(procIndex, Packet(tag, data))] && outgoing == old(outgoing)
      ensures dest != procIndex ==> log == old(log) && bufferLists == old(bufferLists)
      ensures dest != procIndex ==> outgoing == old(outgoing)[dest := old(outgoing)[dest] + Frame(Packet(tag, data))]
    {
      if dest == procIndex {
        InsertInBufferList(procIndex, tag, data);
      } else {
        outgoing := outgoing[dest := outgoing[dest] + (Word(|data|) + TagWord(tag) + data)];
      }
    }

    // The peer's side of SockNode::send, or of barrier and terminateUpdateThread: a whole frame goes onto the stream.
    method Arrive(i: nat, p: Packet)
      requires Valid() && i < numProcs && Expected(i, p)
      modifies `pending, `todo
      ensures Valid() && todo == old(todo)[i := old(todo)[i] + [p]]
    {
      assert Streams(i, pending[i], todo[i]);
      FramesAppend(todo[i], p);
      pending := pending[i := pending[i] + Word(|p.data|) + TagWord(p.tag) + p.data];
      todo := todo[i := todo[i] + [p]];
    }
  }
}
