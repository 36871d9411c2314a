/**
 Packets on their way: routePacket filling a queue of hops, the work list of
 forwardPacket, netSend, and the receive-or-forward decision of
 netPullFromTransport (common/network/network.cc, common/network/network_model.cc,
 common/network/models/network_model_emesh_hop_by_hop.cc).  The router
 and link models are any functions of the packet and where it is.
 */
module Network {
  import opened Mesh
  import opened Arithmetic

  // The fields of a packet that hops change, and where it is.
  datatype Packet = Packet(place: Place, time: nat, zeroLoadDelay: nat, contentionDelay: nat)

  // What the router and link models, the length of the packet and the switch for
  // modelling say of a packet where it is.
  datatype Models = Models(
    injection: (Header, Packet) -> nat,
    zeroLoad: (Header, Packet) -> nat,
    contention: (Header, Packet) -> nat,
    link: (Header, Packet, Place) -> nat,
    flits: (Header, Packet) -> nat,
    enabled: (Header, Packet) -> bool)

  // The constructor of Hop
  function MakeHop(pkt: Packet, place: Place, zeroLoadDelay: nat, contentionDelay: nat): (hop: Packet)
    ensures hop.place == place && hop.time - pkt.time == zeroLoadDelay + contentionDelay
    ensures hop.zeroLoadDelay - pkt.zeroLoadDelay == zeroLoadDelay && hop.contentionDelay - pkt.contentionDelay == contentionDelay
  {
    Packet(place, pkt.time + contentionDelay + zeroLoadDelay,
           pkt.zeroLoadDelay + zeroLoadDelay, pkt.contentionDelay + contentionDelay)
  }

  // The slowest of the links to some places
  function MaxLink(m: Models, h: Header, pkt: Packet, ps: seq<Place>): nat {
    if ps == [] then 0
    else
      var (rest, d) := (MaxLink(m, h, pkt, ps[..|ps| - 1]), m.link(h, pkt, ps[|ps| - 1]));
      if d > rest then d else rest
  }

  lemma {:induction false} MaxLinkIsMax(m: Models, h: Header, pkt: Packet, ps: seq<Place>)
    ensures forall p :: p in ps ==> m.link(h, pkt, p) <= MaxLink(m, h, pkt, ps)
    ensures MaxLink(m, h, pkt, ps) > 0 ==> exists p :: p in ps && m.link(h, pkt, p) == MaxLink(m, h, pkt, ps)
    decreases |ps|
  {
    if ps != [] {
      var n := |ps| - 1;
      MaxLinkIsMax(m, h, pkt, ps[..n]);
      assert ps == ps[..n] + [ps[n]] && ps[n] in ps;
    }
  }

  // What a hop adds: nothing in the corner cases; the contention at the injection port;
  // on the mesh the router, and the link or, in a broadcast, the slowest link.
  function HopZero(net: Net, m: Models, h: Header, pkt: Packet, next: Place): nat
    requires Valid(net)
  {
    if !pkt.place.node.Emesh? then 0
    else m.zeroLoad(h, pkt) + (if h.receiver.Broadcast? then MaxLink(m, h, pkt, MeshRoute(net, h, pkt.place)) else m.link(h, pkt, next))
  }

  function HopContention(m: Models, h: Header, pkt: Packet, next: Place): nat {
    if pkt.place.node.Emesh? then m.contention(h, pkt)
    else if pkt.place.node.SendTile? && next.node.Emesh? then m.injection(h, pkt) else 0
  }

  // The packet after a hop
  predicate Hopped(net: Net, m: Models, h: Header, from: Packet, to: Packet)
    requires Valid(net)
  {
    var (z, c) := (HopZero(net, m, h, from, to.place), HopContention(m, h, from, to.place));
    && to.time == from.time + z + c
    && to.zeroLoadDelay == from.zeroLoadDelay + z && to.contentionDelay == from.contentionDelay + c
  }

  predicate AllHopped(net: Net, m: Models, h: Header, from: Packet, to: seq<Packet>)
    requires Valid(net)
  {
    forall k :: 0 <= k < |to| ==> Hopped(net, m, h, from, to[k])
  }

  // ---------------------------------------------------------------- journeys

  // A hop of the route, with the delays of the models
  predicate Linked(net: Net, m: Models, h: Header, from: Packet, to: Packet)
    requires Valid(net)
  {
    to.place in Route(net, h, from.place) && Hopped(net, m, h, from, to)
  }

  predicate LinkedAt(net: Net, m: Models, h: Header, ps: seq<Packet>, i: nat)
    requires Valid(net) && 0 < i < |ps|
  {
    Linked(net, m, h, ps[i - 1], ps[i])
  }

  // A packet at one place after the other
  predicate Trace(net: Net, m: Models, h: Header, start: Packet, ps: seq<Packet>)
    requires Valid(net)
  {
    |ps| >= 1 && ps[0] == start && forall i :: 0 < i < |ps| ==> LinkedAt(net, m, h, ps, i)
  }

  ghost predicate Came(net: Net, m: Models, h: Header, start: Packet, pkt: Packet)
    requires Valid(net)
  {
    exists ps :: Trace(net, m, h, start, ps) && ps[|ps| - 1] == pkt
  }

  ghost predicate AllCame(net: Net, m: Models, h: Header, start: Packet, to: seq<Packet>)
    requires Valid(net)
  {
    forall k :: 0 <= k < |to| ==> Came(net, m, h, start, to[k])
  }

  lemma {:induction false} CameHere(net: Net, m: Models, h: Header, start: Packet)
    requires Valid(net)
    ensures Came(net, m, h, start, start)
  {
    assert Trace(net, m, h, start, [start]) && [start][0] == start;
  }

  lemma {:induction false} CameOn(net: Net, m: Models, h: Header, start: Packet, a: Packet, b: Packet)
    requires Valid(net) && Came(net, m, h, start, a) && Linked(net, m, h, a, b)
    ensures Came(net, m, h, start, b)
  {
    var ps :| Trace(net, m, h, start, ps) && ps[|ps| - 1] == a;
    var qs := ps + [b];
    forall i | 0 < i < |qs| ensures LinkedAt(net, m, h, qs, i) {
      if i < |ps| {
        assert LinkedAt(net, m, h, ps, i);
      }
    }
    assert Trace(net, m, h, start, qs) && qs[|qs| - 1] == b;
  }

  lemma {:induction false} AllCameOn(net: Net, m: Models, h: Header, start: Packet, a: Packet, hops: seq<Packet>)
    requires Valid(net) && Came(net, m, h, start, a) && AllHopped(net, m, h, a, hops) && PlacesOf(hops) == Route(net, h, a.place)
    ensures AllCame(net, m, h, start, hops)
  {
    forall k | 0 <= k < |hops| ensures Came(net, m, h, start, hops[k]) {
      assert hops[k].place == PlacesOf(hops)[k];
      CameOn(net, m, h, start, a, hops[k]);
    }
  }

  lemma {:induction false} CameJoin(net: Net, m: Models, h: Header, start: Packet, a: seq<Packet>, b: seq<Packet>)
    requires Valid(net) && AllCame(net, m, h, start, a) && AllCame(net, m, h, start, b)
    ensures AllCame(net, m, h, start, a + b)
  {}

  lemma {:induction false} CameSplit(net: Net, m: Models, h: Header, start: Packet, ps: seq<Packet>)
    requires Valid(net) && AllCame(net, m, h, start, ps) && ps != []
    ensures Came(net, m, h, start, ps[0]) && AllCame(net, m, h, start, [ps[0]]) && AllCame(net, m, h, start, ps[1..])
  {}

  lemma {:induction false} CameWithout(net: Net, m: Models, h: Header, start: Packet, ps: seq<Packet>, k: nat)
    requires Valid(net) && AllCame(net, m, h, start, ps) && k < |ps|
    ensures Came(net, m, h, start, ps[k]) && AllCame(net, m, h, start, [ps[k]])
    ensures AllCame(net, m, h, start, ps[..k] + ps[k + 1..])
  {}

  // The delays along a trace
  function SumZero(net: Net, m: Models, h: Header, ps: seq<Packet>): nat
    requires Valid(net)
  {
    var n := |ps| - 1;
    if n <= 0 then 0 else SumZero(net, m, h, ps[..n]) + HopZero(net, m, h, ps[n - 1], ps[n].place)
  }

  function SumContention(m: Models, h: Header, ps: seq<Packet>): nat {
    var n := |ps| - 1;
    if n <= 0 then 0 else SumContention(m, h, ps[..n]) + HopContention(m, h, ps[n - 1], ps[n].place)
  }

  lemma {:induction false} TraceSums(net: Net, m: Models, h: Header, start: Packet, ps: seq<Packet>)
    requires Valid(net) && Trace(net, m, h, start, ps)
    ensures var (p, z, c) := (ps[|ps| - 1], SumZero(net, m, h, ps), SumContention(m, h, ps));
      && p.zeroLoadDelay == start.zeroLoadDelay + z && p.contentionDelay == start.contentionDelay + c
      && p.time == start.time + z + c
    decreases |ps|
  {
    var n := |ps| - 1;
    if n > 0 {
      forall i | 0 < i < n ensures LinkedAt(net, m, h, ps[..n], i) {
        assert LinkedAt(net, m, h, ps, i);
      }
      TraceSums(net, m, h, start, ps[..n]);
      assert LinkedAt(net, m, h, ps, n);
    }
  }

  // A packet for one tile keeps to the row of its sender and then to the column of its receiver.
  lemma {:induction false} RowThenColumn(net: Net, m: Models, h: Header, start: Packet, ps: seq<Packet>, i: nat)
    requires Valid(net) && OnMesh(net, h) && h.receiver.One? && start.place == Sent(h)
    requires Trace(net, m, h, start, ps) && i < |ps|
    ensures ps[i].place.node.SendTile? ==> i == 0
    ensures ps[i].place.node.Emesh? ==>
      var (s, c, d) := (Position(net, h.sender), Position(net, ps[i].place.tile), Position(net, h.receiver.tile));
      IsApplicationTile(net, ps[i].place.tile) && (c.y == s.y || c.x == d.x)
  {
    if i > 0 {
      RowThenColumn(net, m, h, start, ps, i - 1);
      var (p, q) := (ps[i - 1].place, ps[i].place);
      assert LinkedAt(net, m, h, ps, i);
      if p.node.Emesh? && q.node.Emesh? {
        var e := MeshNext(net, h, p, q);
        PositionOfTile(net, e);
        TileOfPosition(net, h.receiver.tile);
        PositionOfTile(net, Toward(Position(net, p.tile), Position(net, h.receiver.tile)));
      } else if q.node.Emesh? {
        assert q in CornerCases(net, h) + [Place(p.tile, Emesh, 0)];
      }
    }
  }

  // Serialization, unless the packet is not modelled
  function Flits(net: Net, m: Models, h: Header, pkt: Packet): nat {
    if IsSystemTile(net, h.sender) || IsSystemTile(net, pkt.place.tile) || h.receiver == One(h.sender) || !m.enabled(h, pkt) then 0
    else m.flits(h, pkt)
  }

  // A received packet has come along a route, and its times are the delays of the models
  // along it and the serialization at its end.
  predicate Journey(net: Net, m: Models, h: Header, start: Packet, ps: seq<Packet>, r: Packet)
    requires Valid(net)
  {
    && Trace(net, m, h, start, ps) && ps[|ps| - 1].place == r.place && r.place.node.ReceiveTile?
    && var (z, c) := (SumZero(net, m, h, ps) + Flits(net, m, h, ps[|ps| - 1]), SumContention(m, h, ps));
       && r.zeroLoadDelay == start.zeroLoadDelay + z && r.contentionDelay == start.contentionDelay + c
       && r.time == start.time + z + c
  }

  ghost predicate Arrived(net: Net, m: Models, h: Header, start: Packet, r: Packet)
    requires Valid(net)
  {
    exists ps :: Journey(net, m, h, start, ps, r)
  }

  ghost predicate AllArrived(net: Net, m: Models, h: Header, start: Packet, rs: seq<Packet>)
    requires Valid(net)
  {
    forall k :: 0 <= k < |rs| ==> Arrived(net, m, h, start, rs[k])
  }

  lemma {:induction false} ArrivedJoin(net: Net, m: Models, h: Header, start: Packet, rs: seq<Packet>, r: Packet)
    requires Valid(net) && AllArrived(net, m, h, start, rs) && Arrived(net, m, h, start, r)
    ensures AllArrived(net, m, h, start, rs + [r])
  {}

  lemma {:induction false} CameArrives(net: Net, m: Models, h: Header, start: Packet, pkt: Packet, r: Packet)
    requires Valid(net) && Came(net, m, h, start, pkt) && pkt.place.node.ReceiveTile? && r.place == pkt.place
    requires var f := Flits(net, m, h, pkt);
      r.time == pkt.time + f && r.zeroLoadDelay == pkt.zeroLoadDelay + f && r.contentionDelay == pkt.contentionDelay
    ensures Arrived(net, m, h, start, r)
  {
    var ps :| Trace(net, m, h, start, ps) && ps[|ps| - 1] == pkt;
    TraceSums(net, m, h, start, ps);
    assert Journey(net, m, h, start, ps, r);
  }

  function PlacesOf(ps: seq<Packet>): (r: seq<Place>)
    ensures |r| == |ps|
  {
    seq(|ps|, k requires 0 <= k < |ps| => ps[k].place)
  }

  // ---------------------------------------------------------------- routePacket

  // The destinations that are in the mesh.
  function Filtered(ps: seq<Place>): seq<Place> {
    if ps == [] then []
    else
      var (rest, last) := (ps[..|ps| - 1], ps[|ps| - 1]);
      if last.tile == INVALID_TILE_ID then Filtered(rest) else Filtered(rest) + [last]
  }

  lemma {:induction false} FilteredNext(ps: seq<Place>, p: Place)
    ensures Filtered(ps + [p]) == if p.tile == INVALID_TILE_ID then Filtered(ps) else Filtered(ps) + [p]
  {
    assert (ps + [p])[..|ps|] == ps;
  }

  // Building the list of next destinations with invalid ones in it, and dropping them later.
  lemma {:induction false} FilteredHop(net: Net, ps: seq<Place>, wanted: bool, c: Pos, links: nat)
    requires Valid(net)
    ensures Filtered(if wanted then ps + [Place(TileId(net, c), Emesh, links)] else ps)
         == Filtered(ps) + MeshHop(net, wanted, c, links)
  {
    FilteredNext(ps, Place(TileId(net, c), Emesh, links));
    if InMesh(net, c) {
      CellBelow(net.width, net.height, c.x, c.y);
    }
    assert Filtered(ps) + [] == Filtered(ps);
  }

  // The list of next destinations, invalid ones still in it.
  method NextDests(net: Net, w1: bool, p1: Pos, w2: bool, p2: Pos, w3: bool, p3: Pos, w4: bool, p4: Pos, here: Place)
    returns (dests: seq<Place>)
    requires Valid(net) && here.tile != INVALID_TILE_ID
    ensures var n := here.links + 1;
      Filtered(dests) ==
        MeshHop(net, w1, p1, n) + MeshHop(net, w2, p2, n) + MeshHop(net, w3, p3, n) + MeshHop(net, w4, p4, n) + [here]
  {
    dests := AddDest(net, [], w1, p1, here.links + 1);
    assert Filtered(dests) == MeshHop(net, w1, p1, here.links + 1);
    dests := AddDest(net, dests, w2, p2, here.links + 1);
    dests := AddDest(net, dests, w3, p3, here.links + 1);
    dests := AddDest(net, dests, w4, p4, here.links + 1);
    FilteredNext(dests, here);
    dests := dests + [here];
  }

  method AddDest(net: Net, dests: seq<Place>, wanted: bool, c: Pos, links: nat) returns (r: seq<Place>)
    requires Valid(net)
    ensures Filtered(r) == Filtered(dests) + MeshHop(net, wanted, c, links)
  {
    FilteredHop(net, dests, wanted, c, links);
    r := dests;
    if wanted {
      r := r + [Place(TileId(net, c), Emesh, links)];
    }
  }

  method RouteBroadcast(net: Net, m: Models, h: Header, pkt: Packet) returns (hops: seq<Packet>)
    requires Valid(net) && IsApplicationTile(net, pkt.place.tile) && pkt.place.node.Emesh? && h.receiver.Broadcast?
    ensures PlacesOf(hops) == MeshRoute(net, h, pkt.place) && AllHopped(net, m, h, pkt, hops)
  {
    var dests := BroadcastDests(net, h, pkt.place);
    hops := HopsTo(m, h, pkt, dests);
    BroadcastHopped(net, m, h, pkt, hops);
  }

  method BroadcastDests(net: Net, h: Header, at: Place) returns (dests: seq<Place>)
    requires Valid(net) && IsApplicationTile(net, at.tile) && at.node.Emesh? && h.receiver.Broadcast?
    ensures Filtered(dests) == MeshRoute(net, h, at)
  {
    var (s, c) := (Position(net, h.sender), Position(net, at.tile));
    dests := NextDests(net, c.y >= s.y, Pos(c.x, c.y + 1), c.y <= s.y, Pos(c.x, c.y - 1),
                       c.y == s.y && c.x >= s.x, Pos(c.x + 1, c.y), c.y == s.y && c.x <= s.x, Pos(c.x - 1, c.y),
                       Place(at.tile, ReceiveTile, at.links));
  }

  // Every hop with the same delays
  predicate AllAfter(pkt: Packet, hops: seq<Packet>, z: nat, c: nat) {
    forall k :: 0 <= k < |hops| ==>
      && hops[k].zeroLoadDelay == pkt.zeroLoadDelay + z && hops[k].contentionDelay == pkt.contentionDelay + c
      && hops[k].time == pkt.time + z + c
  }

  lemma {:induction false} BroadcastHopped(net: Net, m: Models, h: Header, pkt: Packet, hops: seq<Packet>)
    requires Valid(net) && pkt.place.node.Emesh? && h.receiver.Broadcast?
    requires AllAfter(pkt, hops, m.zeroLoad(h, pkt) + MaxLink(m, h, pkt, MeshRoute(net, h, pkt.place)), m.contention(h, pkt))
    ensures AllHopped(net, m, h, pkt, hops)
  {
    var z := m.zeroLoad(h, pkt) + MaxLink(m, h, pkt, MeshRoute(net, h, pkt.place));
    forall k | 0 <= k < |hops| ensures Hopped(net, m, h, pkt, hops[k]) {
      assert HopZero(net, m, h, pkt, hops[k].place) == z;
    }
  }

  // Erase invalid destinations, take the slowest link, and make one hop for each destination left.
  method HopsTo(m: Models, h: Header, pkt: Packet, dests: seq<Place>) returns (hops: seq<Packet>)
    ensures PlacesOf(hops) == Filtered(dests)
    ensures AllAfter(pkt, hops, m.zeroLoad(h, pkt) + MaxLink(m, h, pkt, Filtered(dests)), m.contention(h, pkt))
  {
    var valid, maxLinkDelay := [], 0;
    for i := 0 to |dests|
      invariant valid == Filtered(dests[..i]) && maxLinkDelay == MaxLink(m, h, pkt, valid)
    {
      assert dests[..i + 1] == dests[..i] + [dests[i]];
      FilteredNext(dests[..i], dests[i]);
      if dests[i].tile != INVALID_TILE_ID {
        assert (valid + [dests[i]])[..|valid|] == valid;
        valid := valid + [dests[i]];
        var linkDelay := m.link(h, pkt, dests[i]);
        maxLinkDelay := if linkDelay > maxLinkDelay then linkDelay else maxLinkDelay;
      }
    }
    assert dests[..|dests|] == dests;
    var (zeroLoadDelay, contentionDelay) := (maxLinkDelay + m.zeroLoad(h, pkt), m.contention(h, pkt));
    hops := [];
    for i := 0 to |valid|
      invariant |hops| == i
      invariant forall k :: 0 <= k < i ==> hops[k] == MakeHop(pkt, valid[k], zeroLoadDelay, contentionDelay)
    {
      hops := hops + [MakeHop(pkt, valid[i], zeroLoadDelay, contentionDelay)];
    }
  }

  method RouteUnicast(net: Net, m: Models, h: Header, pkt: Packet) returns (hops: seq<Packet>)
    requires Valid(net) && h.receiver.One? && pkt.place.node.Emesh?
    ensures PlacesOf(hops) == MeshRoute(net, h, pkt.place) && AllHopped(net, m, h, pkt, hops)
  {
    var (c, d, links) := (Position(net, pkt.place.tile), Position(net, h.receiver.tile), pkt.place.links + 1);
    var next;
    if c.x > d.x {
      next := Place(TileId(net, Pos(c.x - 1, c.y)), Emesh, links);
    } else if c.x < d.x {
      next := Place(TileId(net, Pos(c.x + 1, c.y)), Emesh, links);
    } else if c.y > d.y {
      next := Place(TileId(net, Pos(c.x, c.y - 1)), Emesh, links);
    } else if c.y < d.y {
      next := Place(TileId(net, Pos(c.x, c.y + 1)), Emesh, links);
    } else {
      next := Place(pkt.place.tile, ReceiveTile, links - 1);
    }
    var zeroLoadDelay := m.zeroLoad(h, pkt);
    zeroLoadDelay := zeroLoadDelay + m.link(h, pkt, next);
    hops := [MakeHop(pkt, next, zeroLoadDelay, m.contention(h, pkt))];
  }

  // ---------------------------------------------------------------- __routePacket

  lemma {:induction false} DirectNext(lo: int, hi: int)
    requires lo <= hi
    ensures Direct(lo, hi + 1) == Direct(lo, hi) + [Place(hi, ReceiveTile, 0)]
    decreases hi - lo
  {
    if lo < hi {
      DirectNext(lo + 1, hi);
    }
  }

  // Straight to a tile, without delay
  predicate Straight(pkt: Packet, hops: seq<Packet>) {
    forall k :: 0 <= k < |hops| ==> hops[k] == pkt.(place := hops[k].place)
  }

  method DirectHops(pkt: Packet, lo: int, hi: int) returns (hops: seq<Packet>)
    requires lo <= hi
    ensures PlacesOf(hops) == Direct(lo, hi) && Straight(pkt, hops)
  {
    hops := [];
    for i := lo to hi
      invariant PlacesOf(hops) == Direct(lo, i) && Straight(pkt, hops)
    {
      DirectNext(lo, i);
      var hop := MakeHop(pkt, Place(i, ReceiveTile, 0), 0, 0);
      assert PlacesOf(hops + [hop]) == PlacesOf(hops) + [hop.place];
      hops := hops + [hop];
    }
  }

  // processCornerCases: `processed` says that nothing else is to be done.
  method ProcessCornerCases(net: Net, h: Header, pkt: Packet) returns (processed: bool, hops: seq<Packet>)
    requires Valid(net) && ValidHeader(net, h)
    ensures PlacesOf(hops) == CornerCases(net, h) && Straight(pkt, hops)
    ensures processed == !OnMesh(net, h)
  {
    hops, processed := [], true;
    if h.receiver.One? && h.sender == h.receiver.tile {
      hops := [MakeHop(pkt, Place(h.receiver.tile, ReceiveTile, 0), 0, 0)];
    } else if IsSystemTile(net, h.sender) {
      if h.receiver.Broadcast? {
        hops := DirectHops(pkt, 0, net.total);
      } else {
        hops := [MakeHop(pkt, Place(h.receiver.tile, ReceiveTile, 0), 0, 0)];
      }
    } else if h.receiver.One? && IsSystemTile(net, h.receiver.tile) {
      hops := [MakeHop(pkt, Place(h.receiver.tile, ReceiveTile, 0), 0, 0)];
    } else {
      if h.receiver.Broadcast? {
        hops := DirectHops(pkt, net.width * net.height, net.total);
      }
      processed := false;
    }
  }

  // The corner cases end at a receiving tile, so that nothing is added.
  lemma {:induction false} StraightHopped(net: Net, m: Models, h: Header, pkt: Packet, hops: seq<Packet>)
    requires Valid(net) && pkt.place.node.SendTile? && PlacesOf(hops) == CornerCases(net, h) && Straight(pkt, hops)
    ensures AllHopped(net, m, h, pkt, hops)
  {
    forall k | 0 <= k < |hops| ensures Hopped(net, m, h, pkt, hops[k]) {
      assert PlacesOf(hops)[k] == hops[k].place;
      CornerReceives(net, h, hops[k].place);
    }
  }

  method RoutePacket(net: Net, m: Models, h: Header, pkt: Packet) returns (hops: seq<Packet>)
    requires Valid(net) && ValidHeader(net, h) && Reachable(net, h, pkt.place) && !pkt.place.node.ReceiveTile?
    ensures PlacesOf(hops) == Route(net, h, pkt.place) && AllHopped(net, m, h, pkt, hops)
  {
    if pkt.place.node.SendTile? {
      var processed, corner := ProcessCornerCases(net, h, pkt);
      StraightHopped(net, m, h, pkt, corner);
      hops := corner;
      if !processed {
        // The injection port: its zero-load delay is not added.
        var hop := MakeHop(pkt, Place(pkt.place.tile, Emesh, 0), 0, m.injection(h, pkt));
        hops := corner + [hop];
        assert PlacesOf(hops) == PlacesOf(corner) + [hop.place];
      }
    } else if h.receiver.Broadcast? {
      hops := RouteBroadcast(net, m, h, pkt);
    } else {
      hops := RouteUnicast(net, m, h, pkt);
    }
  }

  // ---------------------------------------------------------------- work lists

  // All places that a packet at p will still be at.
  ghost function Size(net: Net, h: Header, p: Place): nat
    requires Valid(net) && Reachable(net, h, p)
    decreases Rank(net, h, p), |Route(net, h, p)| + 1
  {
    1 + SizeFrom(net, h, p, 0)
  }

  ghost function SizeFrom(net: Net, h: Header, p: Place, k: nat): nat
    requires Valid(net) && Reachable(net, h, p) && k <= |Route(net, h, p)|
    decreases Rank(net, h, p), |Route(net, h, p)| - k
  {
    var hops := Route(net, h, p);
    if k == |hops| then 0
    else
      RouteDescends(net, h, p, hops[k]);
      Size(net, h, hops[k]) + SizeFrom(net, h, p, k + 1)
  }

  ghost function Sizes(net: Net, h: Header, ps: seq<Place>): nat
    requires Valid(net) && AllReachable(net, h, ps)
  {
    if ps == [] then 0 else Size(net, h, ps[0]) + Sizes(net, h, ps[1..])
  }

  lemma {:induction false} SizeFromSizes(net: Net, h: Header, p: Place, k: nat)
    requires Valid(net) && Reachable(net, h, p) && k <= |Route(net, h, p)|
    requires AllReachable(net, h, Route(net, h, p))
    ensures SizeFrom(net, h, p, k) == Sizes(net, h, Route(net, h, p)[k..])
    decreases |Route(net, h, p)| - k
  {
    var hops := Route(net, h, p);
    if k < |hops| {
      SizeFromSizes(net, h, p, k + 1);
      assert hops[k..][1..] == hops[k + 1..];
    }
  }

  lemma {:induction false} SizesAppend(net: Net, h: Header, a: seq<Place>, b: seq<Place>)
    requires Valid(net) && AllReachable(net, h, a) && AllReachable(net, h, b)
    ensures AllReachable(net, h, a + b) && Sizes(net, h, a + b) == Sizes(net, h, a) + Sizes(net, h, b)
    decreases |a|
  {
    if a == [] {
      assert a + b == b;
    } else {
      assert (a + b)[1..] == a[1..] + b && (a + b)[0] == a[0];
      SizesAppend(net, h, a[1..], b);
    }
  }

  // Taking one packet out of a queue: what it accounts for.
  lemma {:induction false} TakeOut(net: Net, h: Header, ps: seq<Place>, k: nat)
    requires Valid(net) && AllReachable(net, h, ps) && k < |ps|
    ensures AllReachable(net, h, ps[..k] + ps[k + 1..])
    ensures Total(net, h, ps) == Arrivals(net, h, ps[k]) + Total(net, h, ps[..k] + ps[k + 1..])
    ensures Sizes(net, h, ps) == Size(net, h, ps[k]) + Sizes(net, h, ps[..k] + ps[k + 1..])
  {
    assert ps == ps[..k] + ps[k..] && ps[k..][1..] == ps[k + 1..];
    TotalAppend(net, h, ps[..k], ps[k..]);
    SizesAppend(net, h, ps[..k], ps[k..]);
    TotalAppend(net, h, ps[..k], ps[k + 1..]);
    SizesAppend(net, h, ps[..k], ps[k + 1..]);
  }

  // Replacing a packet by its hops: nothing more or less is received, and less is left to do.
  lemma {:induction false} Expand(net: Net, h: Header, p: Place, rest: seq<Place>)
    requires Valid(net) && Reachable(net, h, p) && !p.node.ReceiveTile? && AllReachable(net, h, rest)
    ensures AllReachable(net, h, rest + Route(net, h, p))
    ensures Total(net, h, rest + Route(net, h, p)) == Arrivals(net, h, p) + Total(net, h, rest)
    ensures Sizes(net, h, rest + Route(net, h, p)) == Size(net, h, p) - 1 + Sizes(net, h, rest)
  {
    ArrivalsRoute(net, h, p);
    SizeFromSizes(net, h, p, 0);
    assert Route(net, h, p)[0..] == Route(net, h, p);
    TotalAppend(net, h, rest, Route(net, h, p));
    SizesAppend(net, h, rest, Route(net, h, p));
  }

  // The packets sent and the packets queued account for all that a packet at `from` leads to.
  ghost predicate Account(net: Net, h: Header, from: Place, sends: seq<Place>, queue: seq<Place>)
    requires Valid(net) && Reachable(net, h, from)
  {
    && AllReachable(net, h, sends) && AllReachable(net, h, queue)
    && Total(net, h, sends) + Total(net, h, queue) == Arrivals(net, h, from)
    && Sizes(net, h, sends) + Sizes(net, h, queue) < Size(net, h, from)
  }

  lemma {:induction false} AccountStart(net: Net, h: Header, from: Place)
    requires Valid(net) && Reachable(net, h, from) && !from.node.ReceiveTile?
    ensures Account(net, h, from, [], Route(net, h, from))
  {
    Expand(net, h, from, []);
    assert [] + Route(net, h, from) == Route(net, h, from);
  }

  lemma {:induction false} AccountSend(net: Net, h: Header, from: Place, sends: seq<Place>, queue: seq<Place>)
    requires Valid(net) && Reachable(net, h, from) && Account(net, h, from, sends, queue) && queue != []
    ensures Account(net, h, from, sends + [queue[0]], queue[1..])
    ensures Sizes(net, h, queue[1..]) < Sizes(net, h, queue)
  {
    assert [queue[0]][1..] == [];
    TotalAppend(net, h, sends, [queue[0]]);
    SizesAppend(net, h, sends, [queue[0]]);
  }

  lemma {:induction false} AccountExpand(net: Net, h: Header, from: Place, sends: seq<Place>, queue: seq<Place>)
    requires Valid(net) && Reachable(net, h, from) && Account(net, h, from, sends, queue)
    requires queue != [] && !queue[0].node.ReceiveTile?
    ensures Account(net, h, from, sends, queue[1..] + Route(net, h, queue[0]))
    ensures Sizes(net, h, queue[1..] + Route(net, h, queue[0])) < Sizes(net, h, queue)
  {
    Expand(net, h, queue[0], queue[1..]);
  }

  // The first packet of a queue goes out.
  lemma {:induction false} FirstOut(sends: seq<Packet>, queue: seq<Packet>)
    requires queue != []
    ensures PlacesOf(sends + [queue[0]]) == PlacesOf(sends) + [PlacesOf(queue)[0]]
    ensures PlacesOf(queue[1..]) == PlacesOf(queue)[1..]
    ensures sends + [queue[0]] + queue[1..] == sends + queue
  {}

  // The first packet of a queue is replaced by its hops.
  lemma {:induction false} FirstFollowed(queue: seq<Packet>, more: seq<Packet>)
    requires queue != []
    ensures PlacesOf(queue[1..] + more) == PlacesOf(queue)[1..] + PlacesOf(more)
  {}

  predicate AllReceived(ps: seq<Packet>) {
    forall k :: 0 <= k < |ps| ==> ps[k].place.node.ReceiveTile?
  }

  // forwardPacket: with the shortcut the hops are followed here, without it each
  // hop is left to its tile.
  method ForwardPacket(net: Net, m: Models, h: Header, ghost start: Packet, pkt: Packet, shortcut: bool) returns (sends: seq<Packet>)
    requires Valid(net) && ValidHeader(net, h) && Reachable(net, h, pkt.place) && !pkt.place.node.ReceiveTile?
    requires Came(net, m, h, start, pkt)
    ensures AllReachable(net, h, PlacesOf(sends)) && AllCame(net, m, h, start, sends)
    ensures Total(net, h, PlacesOf(sends)) == Arrivals(net, h, pkt.place)
    ensures Sizes(net, h, PlacesOf(sends)) < Size(net, h, pkt.place)
    ensures shortcut ==> AllReceived(sends)
    ensures !shortcut ==> PlacesOf(sends) == Route(net, h, pkt.place) && AllHopped(net, m, h, pkt, sends)
  {
    sends := [];
    var queue := RoutePacket(net, m, h, pkt);
    AccountStart(net, h, pkt.place);
    AllCameOn(net, m, h, start, pkt, queue);
    ghost var first := queue;
    while queue != []
      invariant Account(net, h, pkt.place, PlacesOf(sends), PlacesOf(queue))
      invariant AllCame(net, m, h, start, queue) && AllCame(net, m, h, start, sends)
      invariant shortcut ==> AllReceived(sends)
      invariant !shortcut ==> sends + queue == first
      decreases Sizes(net, h, PlacesOf(queue))
    {
      var hop := queue[0];
      CameSplit(net, m, h, start, queue);
      if !hop.place.node.ReceiveTile? && shortcut {
        var more := RoutePacket(net, m, h, hop);
        AllCameOn(net, m, h, start, hop, more);
        CameJoin(net, m, h, start, queue[1..], more);
        FirstFollowed(queue, more);
        AccountExpand(net, h, pkt.place, PlacesOf(sends), PlacesOf(queue));
        queue := queue[1..] + more;
      } else {
        FirstOut(sends, queue);
        CameJoin(net, m, h, start, sends, [hop]);
        AccountSend(net, h, pkt.place, PlacesOf(sends), PlacesOf(queue));
        sends, queue := sends + [hop], queue[1..];
      }
    }
    assert sends + queue == sends;
  }

  // ---------------------------------------------------------------- from send to receive

  // __processReceivedPacket: the serialization latency, unless the packet is not modelled.
  method ProcessReceivedPacket(net: Net, m: Models, h: Header, pkt: Packet) returns (r: Packet)
    ensures var f := Flits(net, m, h, pkt);
      && r.place == pkt.place && r.time == pkt.time + f && r.zeroLoadDelay == pkt.zeroLoadDelay + f
      && r.contentionDelay == pkt.contentionDelay
  {
    r := pkt;
    if IsSystemTile(net, h.sender) || IsSystemTile(net, pkt.place.tile)
       || h.receiver == One(h.sender) || !m.enabled(h, pkt) {
      return;
    }
    var numFlits := m.flits(h, pkt);
    r := r.(time := r.time + numFlits);
    r := r.(zeroLoadDelay := r.zeroLoadDelay + numFlits);
  }

  // A packet taken out of the ones in flight.
  lemma {:induction false} PlacesWithout(ps: seq<Packet>, k: nat)
    requires k < |ps|
    ensures PlacesOf(ps[..k] + ps[k + 1..]) == PlacesOf(ps)[..k] + PlacesOf(ps)[k + 1..] && PlacesOf(ps)[k] == ps[k].place
  {}

  lemma {:induction false} PlacesJoin(a: seq<Packet>, b: seq<Packet>)
    ensures PlacesOf(a + b) == PlacesOf(a) + PlacesOf(b)
  {}

  // What was received and what is in flight account for everything that was sent.
  ghost predicate Balance(net: Net, h: Header, all: multiset<Place>, received: seq<Place>, flight: seq<Place>)
    requires Valid(net)
  {
    AllReachable(net, h, flight) && multiset(received) + Total(net, h, flight) == all
  }

  lemma {:induction false} BalanceReceive(net: Net, h: Header, all: multiset<Place>,
                                          received: seq<Place>, flight: seq<Place>, k: nat)
    requires Valid(net) && Balance(net, h, all, received, flight) && k < |flight| && flight[k].node.ReceiveTile?
    ensures Balance(net, h, all, received + [flight[k]], flight[..k] + flight[k + 1..])
    ensures Sizes(net, h, flight[..k] + flight[k + 1..]) < Sizes(net, h, flight)
  {
    TakeOut(net, h, flight, k);
  }

  lemma {:induction false} BalanceForward(net: Net, h: Header, all: multiset<Place>,
                                          received: seq<Place>, flight: seq<Place>, k: nat, more: seq<Place>)
    requires Valid(net) && Balance(net, h, all, received, flight) && k < |flight| && AllReachable(net, h, more)
    requires Total(net, h, more) == Arrivals(net, h, flight[k]) && Sizes(net, h, more) < Size(net, h, flight[k])
    ensures Balance(net, h, all, received, flight[..k] + flight[k + 1..] + more)
    ensures Sizes(net, h, flight[..k] + flight[k + 1..] + more) < Sizes(net, h, flight)
  {
    TakeOut(net, h, flight, k);
    TotalAppend(net, h, flight[..k] + flight[k + 1..], more);
    SizesAppend(net, h, flight[..k] + flight[k + 1..], more);
  }

  // netPullFromTransport at all tiles, in whatever order the transport hands the
  // packets out, until none is in flight.
  method Deliver(net: Net, m: Models, h: Header, ghost start: Packet, sends: seq<Packet>, shortcut: bool) returns (received: seq<Packet>)
    requires Valid(net) && ValidHeader(net, h) && AllReachable(net, h, PlacesOf(sends)) && AllCame(net, m, h, start, sends)
    ensures multiset(PlacesOf(received)) == Total(net, h, PlacesOf(sends)) && AllArrived(net, m, h, start, received)
  {
    received := [];
    var flight := sends;
    ghost var all := Total(net, h, PlacesOf(sends));
    while flight != []
      invariant AllArrived(net, m, h, start, received) && AllCame(net, m, h, start, flight)
      invariant Balance(net, h, all, PlacesOf(received), PlacesOf(flight))
      decreases Sizes(net, h, PlacesOf(flight))
    {
      var k :| 0 <= k < |flight|;
      var (pkt, rest) := (flight[k], flight[..k] + flight[k + 1..]);
      PlacesWithout(flight, k);
      CameWithout(net, m, h, start, flight, k);
      if pkt.place.node.ReceiveTile? {
        BalanceReceive(net, h, all, PlacesOf(received), PlacesOf(flight), k);
        var r := ProcessReceivedPacket(net, m, h, pkt);
        CameArrives(net, m, h, start, pkt, r);
        PlacesJoin(received, [r]);
        assert PlacesOf([r]) == [pkt.place];
        ArrivedJoin(net, m, h, start, received, r);
        received, flight := received + [r], rest;
      } else {
        var more := ForwardPacket(net, m, h, start, pkt, shortcut);
        BalanceForward(net, h, all, PlacesOf(received), PlacesOf(flight), k, PlacesOf(more));
        PlacesJoin(rest, more);
        CameJoin(net, m, h, start, rest, more);
        flight := rest + more;
      }
    }
  }

  method SendOne(net: Net, m: Models, h: Header, start: Packet, shortcut: bool) returns (received: seq<Packet>)
    requires Valid(net) && ValidHeader(net, h) && start.place == Sent(h)
    ensures multiset(PlacesOf(received)) == Arrivals(net, h, Sent(h)) && AllArrived(net, m, h, start, received)
  {
    CameHere(net, m, h, start);
    var sends := ForwardPacket(net, m, h, start, start, shortcut);
    received := Deliver(net, m, h, start, sends, shortcut);
  }

  // The header under which a packet travels that is received at a tile
  function HeaderAt(h: Header, tree: bool, tile: int): Header {
    if h.receiver.Broadcast? && !tree then Header(h.sender, One(tile)) else h
  }

  // netSend and all that follows from it: a broadcast, by tree or by one packet
  // for each tile, with or without the shortcut, is received once at every tile,
  // any other packet once at its receiver; each took as many links as its tile is
  // away, and its time is the injection time plus the delays of its journey.
  method NetSend(net: Net, m: Models, h: Header, time: nat, broadcastCapable: bool, shortcut: bool) returns (received: seq<Packet>)
    requires Valid(net) && ValidHeader(net, h)
    ensures h.receiver.Broadcast? ==>
      forall q :: multiset(PlacesOf(received))[q] == if Due(net, h.sender, q) then 1 else 0
    ensures h.receiver.One? ==>
      PlacesOf(received) == [Place(h.receiver.tile, ReceiveTile, LinksTo(net, h.sender, h.receiver.tile))]
    ensures forall k :: 0 <= k < |received| ==>
      Arrived(net, m, HeaderAt(h, broadcastCapable, received[k].place.tile), Packet(Sent(h), time, 0, 0), received[k])
    ensures forall k :: 0 <= k < |received| ==>
      received[k].time == time + received[k].zeroLoadDelay + received[k].contentionDelay
  {
    var start := Packet(Sent(h), time, 0, 0);
    if h.receiver.Broadcast? && !broadcastCapable {
      received := SendToEach(net, m, h.sender, start, shortcut);
      BroadcastEquivalence(net, h.sender);
    } else {
      received := SendOne(net, m, h, start, shortcut);
    }
    forall k | 0 <= k < |received| ensures received[k].time == time + received[k].zeroLoadDelay + received[k].contentionDelay {
      ArrivedOnTime(net, m, HeaderAt(h, broadcastCapable, received[k].place.tile), start, received[k]);
    }
    if h.receiver.Broadcast? {
      forall q ensures multiset(PlacesOf(received))[q] == if Due(net, h.sender, q) then 1 else 0 {
        BroadcastReaches(net, h, q);
      }
    } else {
      UnicastReaches(net, h);
      OnlyOne(PlacesOf(received), Place(h.receiver.tile, ReceiveTile, LinksTo(net, h.sender, h.receiver.tile)));
    }
  }

  // Time passes by the delays that are added.
  lemma {:induction false} ArrivedOnTime(net: Net, m: Models, h: Header, start: Packet, r: Packet)
    requires Valid(net) && Arrived(net, m, h, start, r)
    ensures r.time - start.time == (r.zeroLoadDelay - start.zeroLoadDelay) + (r.contentionDelay - start.contentionDelay)
  {
    var ps :| Journey(net, m, h, start, ps, r);
  }

  // What the packets for tiles 0 .. n - 1 have brought.
  ghost predicate Fanned(net: Net, m: Models, sender: int, start: Packet, rs: seq<Packet>, n: nat)
    requires Valid(net) && IsTile(net, sender) && n <= net.total
  {
    && multiset(PlacesOf(rs)) == FanOut(net, sender, n)
    && forall k :: 0 <= k < |rs| ==> Arrived(net, m, Header(sender, One(rs[k].place.tile)), start, rs[k])
  }

  lemma {:induction false} FannedNext(net: Net, m: Models, sender: int, start: Packet, rs: seq<Packet>, i: nat, more: seq<Packet>)
    requires Valid(net) && IsTile(net, sender) && i < net.total && Fanned(net, m, sender, start, rs, i)
    requires var h := Header(sender, One(i));
      AllArrived(net, m, h, start, more) && multiset(PlacesOf(more)) == Arrivals(net, h, Sent(h))
    ensures Fanned(net, m, sender, start, rs + more, i + 1)
  {
    var h := Header(sender, One(i));
    UnicastReaches(net, h);
    forall k | 0 <= k < |more| ensures more[k].place.tile == i {
      assert PlacesOf(more)[k] in multiset(PlacesOf(more));
    }
    PlacesJoin(rs, more);
    assert FanOut(net, sender, i + 1) == FanOut(net, sender, i) + Arrivals(net, h, Sent(h));
  }

  method SendToEach(net: Net, m: Models, sender: int, start: Packet, shortcut: bool) returns (received: seq<Packet>)
    requires Valid(net) && IsTile(net, sender) && start.place == Place(sender, SendTile, 0)
    ensures Fanned(net, m, sender, start, received, net.total)
  {
    received := [];
    for i := 0 to net.total
      invariant Fanned(net, m, sender, start, received, i)
    {
      var more := SendOne(net, m, Header(sender, One(i)), start, shortcut);
      FannedNext(net, m, sender, start, received, i, more);
      received := received + more;
    }
  }

  lemma {:induction false} OnlyOne(ps: seq<Place>, p: Place)
    requires multiset(ps) == multiset{p}
    ensures ps == [p]
  {
    assert |multiset(ps)| == |ps|;
    assert ps[0] in multiset(ps);
  }
}
