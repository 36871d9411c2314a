/**
 Where packets go on the hop-by-hop mesh: routePacket of
 common/network/models/network_model_emesh_hop_by_hop.cc under __routePacket
 and processCornerCases of common/network/network_model.cc.
 */
module Mesh {
  import opened Arithmetic

  // Application tiles 0 .. width * height - 1 form the mesh, the tiles after them are system tiles.
  datatype Net = Net(width: nat, height: nat, total: nat)

  predicate Valid(net: Net) {
    net.width >= 1 && net.height >= 1 && net.total >= net.width * net.height
  }

  const INVALID_TILE_ID := -1

  predicate IsTile(net: Net, t: int) { 0 <= t < net.total }

  predicate IsApplicationTile(net: Net, t: int) { 0 <= t < net.width * net.height }

  predicate IsSystemTile(net: Net, t: int) { net.width * net.height <= t < net.total }

  // ---------------------------------------------------------------- positions

  datatype Pos = Pos(x: int, y: int)

  predicate InMesh(net: Net, p: Pos) { 0 <= p.x < net.width && 0 <= p.y < net.height }

  // computePosition
  function Position(net: Net, t: int): Pos
    requires Valid(net)
  {
    Pos(t % net.width, t / net.width)
  }

  // computeTileID
  function TileId(net: Net, p: Pos): int {
    if !InMesh(net, p) then INVALID_TILE_ID else p.y * net.width + p.x
  }

  function Abs(x: int): nat { if x < 0 then -x else x }

  function Manhattan(a: Pos, b: Pos): nat { Abs(a.x - b.x) + Abs(a.y - b.y) }

  // computeDistance
  function Distance(net: Net, a: int, b: int): nat
    requires Valid(net)
  {
    Manhattan(Position(net, a), Position(net, b))
  }

  // computePosition undoes computeTileID
  lemma {:induction false} PositionOfTile(net: Net, p: Pos)
    requires Valid(net) && InMesh(net, p)
    ensures Position(net, TileId(net, p)) == p && IsApplicationTile(net, TileId(net, p))
  {
    DivMod(net.width, p.y, p.x);
    CellBelow(net.width, net.height, p.x, p.y);
  }

  // computeTileID undoes computePosition
  lemma {:induction false} TileOfPosition(net: Net, t: int)
    requires Valid(net) && IsApplicationTile(net, t)
    ensures InMesh(net, Position(net, t)) && TileId(net, Position(net, t)) == t
  {
    RowBelow(net.width, net.height, t);
  }

  // ---------------------------------------------------------------- routing

  datatype Receiver = Broadcast | One(tile: int)

  // What a packet goes by.
  datatype Header = Header(sender: int, receiver: Receiver)

  datatype NodeType = SendTile | Emesh | ReceiveTile

  // A packet at a node of a tile.  `links` counts the mesh links it has crossed.
  datatype Place = Place(tile: int, node: NodeType, links: nat)

  predicate ValidHeader(net: Net, h: Header) {
    IsTile(net, h.sender) && (h.receiver.One? ==> IsTile(net, h.receiver.tile))
  }

  // The packets that travel on the mesh itself.
  predicate OnMesh(net: Net, h: Header) {
    && IsApplicationTile(net, h.sender)
    && (h.receiver.One? ==> IsApplicationTile(net, h.receiver.tile) && h.receiver.tile != h.sender)
  }

  // Places a packet can be at.
  predicate Reachable(net: Net, h: Header, p: Place) {
    match p.node
    case SendTile => p.tile == h.sender
    case Emesh => OnMesh(net, h) && IsApplicationTile(net, p.tile)
    case ReceiveTile => true
  }

  // A hop that may be there.
  function Maybe(there: bool, p: Place): seq<Place> {
    if there then [p] else []
  }

  // A hop on the mesh to c, left out if c is outside.
  function MeshHop(net: Net, wanted: bool, c: Pos, links: nat): seq<Place> {
    Maybe(wanted && InMesh(net, c), Place(TileId(net, c), Emesh, links))
  }

  // The hops of a broadcast from s at c: along the row of s away from s, and from
  // each tile of that row up and down its column.
  function Onward(net: Net, s: Pos, c: Pos, links: nat): seq<Place> {
    MeshHop(net, c.y >= s.y, Pos(c.x, c.y + 1), links)
    + MeshHop(net, c.y <= s.y, Pos(c.x, c.y - 1), links)
    + MeshHop(net, c.y == s.y && c.x >= s.x, Pos(c.x + 1, c.y), links)
    + MeshHop(net, c.y == s.y && c.x <= s.x, Pos(c.x - 1, c.y), links)
  }

  // The neighbour a packet for d goes on to from c: first along x, then along y.
  function Toward(c: Pos, d: Pos): (r: Pos)
    requires c != d
    ensures Manhattan(r, d) == Manhattan(c, d) - 1
    ensures forall net: Net :: InMesh(net, c) && InMesh(net, d) ==> InMesh(net, r)
  {
    if c.x > d.x then Pos(c.x - 1, c.y)
    else if c.x < d.x then Pos(c.x + 1, c.y)
    else if c.y > d.y then Pos(c.x, c.y - 1)
    else Pos(c.x, c.y + 1)
  }

  // Tiles lo .. hi - 1, reached without the mesh.
  function Direct(lo: int, hi: int): (r: seq<Place>)
    decreases hi - lo
  {
    if lo >= hi then [] else [Place(lo, ReceiveTile, 0)] + Direct(lo + 1, hi)
  }

  // processCornerCases
  function CornerCases(net: Net, h: Header): seq<Place> {
    match h.receiver
    case One(t) =>
      if t == h.sender || IsSystemTile(net, h.sender) || IsSystemTile(net, t) then [Place(t, ReceiveTile, 0)] else []
    case Broadcast =>
      if IsSystemTile(net, h.sender) then Direct(0, net.total) else Direct(net.width * net.height, net.total)
  }

  // routePacket on the mesh
  function MeshRoute(net: Net, h: Header, p: Place): seq<Place>
    requires Valid(net)
  {
    var c := Position(net, p.tile);
    var here := [Place(p.tile, ReceiveTile, p.links)];
    match h.receiver
    case Broadcast => Onward(net, Position(net, h.sender), c, p.links + 1) + here
    case One(t) =>
      var d := Position(net, t);
      if c == d then here else [Place(TileId(net, Toward(c, d)), Emesh, p.links + 1)]
  }

  // __routePacket
  function Route(net: Net, h: Header, p: Place): seq<Place>
    requires Valid(net)
  {
    match p.node
    case ReceiveTile => []
    case SendTile => CornerCases(net, h) + (if OnMesh(net, h) then [Place(p.tile, Emesh, 0)] else [])
    case Emesh => MeshRoute(net, h, p)
  }

  // How far a place can still be from the end of its route.
  function Rank(net: Net, h: Header, p: Place): int
    requires Valid(net)
  {
    match p.node
    case ReceiveTile => 0
    case SendTile => net.width + net.height + 1
    case Emesh =>
      if h.receiver.Broadcast? then net.width + net.height - Distance(net, h.sender, p.tile)
      else 1 + Distance(net, p.tile, h.receiver.tile)
  }

  lemma {:induction false} MeshRank(net: Net, h: Header, c: Pos, links: nat)
    requires Valid(net) && OnMesh(net, h) && InMesh(net, c)
    ensures var p := Place(TileId(net, c), Emesh, links);
      && Reachable(net, h, p) && 1 <= Rank(net, h, p) <= net.width + net.height
      && Rank(net, h, p) == (if h.receiver.Broadcast? then net.width + net.height - Manhattan(Position(net, h.sender), c)
                             else 1 + Manhattan(c, Position(net, h.receiver.tile)))
  {
    PositionOfTile(net, c);
    TileOfPosition(net, h.sender);
    if h.receiver.One? {
      TileOfPosition(net, h.receiver.tile);
    }
  }

  lemma DirectReceives(lo: int, hi: int, q: Place)
    requires q in Direct(lo, hi)
    ensures q.node.ReceiveTile?
    decreases hi - lo
  {}

  // Every hop brings the packet nearer to the end of its route.
  lemma {:induction false} RouteDescends(net: Net, h: Header, p: Place, q: Place)
    requires Valid(net) && Reachable(net, h, p) && q in Route(net, h, p)
    ensures Reachable(net, h, q) && 0 <= Rank(net, h, q) < Rank(net, h, p)
  {
    match p.node
    case SendTile => {
      if q in CornerCases(net, h) {
        CornerReceives(net, h, q);
      } else {
        TileOfPosition(net, p.tile);
        MeshRank(net, h, Position(net, p.tile), 0);
      }
    }
    case Emesh => {
      var c := Position(net, p.tile);
      TileOfPosition(net, p.tile);
      MeshRank(net, h, c, p.links);
      if q.node.Emesh? {
        var d := MeshNext(net, h, p, q);
        MeshRank(net, h, d, p.links + 1);
      }
    }
  }

  lemma {:induction false} CornerReceives(net: Net, h: Header, q: Place)
    requires q in CornerCases(net, h)
    ensures q.node.ReceiveTile?
  {
    if h.receiver.Broadcast? {
      DirectReceives(if IsSystemTile(net, h.sender) then 0 else net.width * net.height, net.total, q);
    }
  }

  // The position behind a hop on the mesh.
  lemma {:induction false} MeshNext(net: Net, h: Header, p: Place, q: Place) returns (d: Pos)
    requires Valid(net) && OnMesh(net, h) && IsApplicationTile(net, p.tile) && p.node.Emesh?
    requires q in MeshRoute(net, h, p) && q.node.Emesh?
    ensures InMesh(net, d) && q == Place(TileId(net, d), Emesh, p.links + 1)
    ensures var c := Position(net, p.tile);
      if h.receiver.Broadcast? then Manhattan(Position(net, h.sender), d) == Manhattan(Position(net, h.sender), c) + 1
      else Manhattan(d, Position(net, h.receiver.tile)) == Manhattan(c, Position(net, h.receiver.tile)) - 1
  {
    TileOfPosition(net, p.tile);
    if h.receiver.Broadcast? {
      d := OnwardIn(net, Position(net, h.sender), Position(net, p.tile), p.links + 1, q);
    } else {
      TileOfPosition(net, h.receiver.tile);
      d := Toward(Position(net, p.tile), Position(net, h.receiver.tile));
    }
  }

  lemma {:induction false} OnwardIn(net: Net, s: Pos, c: Pos, links: nat, q: Place) returns (d: Pos)
    requires q in Onward(net, s, c, links)
    ensures InMesh(net, d) && q == Place(TileId(net, d), Emesh, links) && Manhattan(s, d) == Manhattan(s, c) + 1
  {
    if q in MeshHop(net, c.y >= s.y, Pos(c.x, c.y + 1), links) {
      d := Pos(c.x, c.y + 1);
    } else if q in MeshHop(net, c.y <= s.y, Pos(c.x, c.y - 1), links) {
      d := Pos(c.x, c.y - 1);
    } else if q in MeshHop(net, c.y == s.y && c.x >= s.x, Pos(c.x + 1, c.y), links) {
      d := Pos(c.x + 1, c.y);
    } else {
      d := Pos(c.x - 1, c.y);
    }
  }

  // ---------------------------------------------------------------- what arrives

  // Everything that is received from a packet at p, wherever its hops lead.
  ghost function Arrivals(net: Net, h: Header, p: Place): multiset<Place>
    requires Valid(net) && Reachable(net, h, p)
    decreases Rank(net, h, p), |Route(net, h, p)| + 1
  {
    if p.node.ReceiveTile? then multiset{p} else ArrivalsFrom(net, h, p, 0)
  }

  ghost function ArrivalsFrom(net: Net, h: Header, p: Place, k: nat): multiset<Place>
    requires Valid(net) && Reachable(net, h, p) && k <= |Route(net, h, p)|
    decreases Rank(net, h, p), |Route(net, h, p)| - k
  {
    var hops := Route(net, h, p);
    if k == |hops| then multiset{}
    else
      RouteDescends(net, h, p, hops[k]);
      Arrivals(net, h, hops[k]) + ArrivalsFrom(net, h, p, k + 1)
  }

  predicate AllReachable(net: Net, h: Header, ps: seq<Place>) {
    forall k :: 0 <= k < |ps| ==> Reachable(net, h, ps[k])
  }

  // Everything that is received from a queue of hops.
  ghost function Total(net: Net, h: Header, ps: seq<Place>): multiset<Place>
    requires Valid(net) && AllReachable(net, h, ps)
  {
    if ps == [] then multiset{} else Arrivals(net, h, ps[0]) + Total(net, h, ps[1..])
  }

  lemma {:induction false} RouteReachable(net: Net, h: Header, p: Place)
    requires Valid(net) && Reachable(net, h, p)
    ensures AllReachable(net, h, Route(net, h, p))
  {
    var hops := Route(net, h, p);
    forall k | 0 <= k < |hops| ensures Reachable(net, h, hops[k]) {
      RouteDescends(net, h, p, hops[k]);
    }
  }

  lemma {:induction false} ArrivalsFromTotal(net: Net, h: Header, p: Place, k: nat)
    requires Valid(net) && Reachable(net, h, p) && k <= |Route(net, h, p)|
    requires AllReachable(net, h, Route(net, h, p))
    ensures ArrivalsFrom(net, h, p, k) == Total(net, h, Route(net, h, p)[k..])
    decreases |Route(net, h, p)| - k
  {
    var hops := Route(net, h, p);
    if k < |hops| {
      ArrivalsFromTotal(net, h, p, k + 1);
      assert hops[k..][1..] == hops[k + 1..];
    }
  }

  // A packet that is not there yet is received where its hops are.
  lemma {:induction false} ArrivalsRoute(net: Net, h: Header, p: Place)
    requires Valid(net) && Reachable(net, h, p) && !p.node.ReceiveTile?
    ensures AllReachable(net, h, Route(net, h, p))
    ensures Arrivals(net, h, p) == Total(net, h, Route(net, h, p))
  {
    RouteReachable(net, h, p);
    ArrivalsFromTotal(net, h, p, 0);
    assert Route(net, h, p)[0..] == Route(net, h, p);
  }

  lemma {:induction false} TotalAppend(net: Net, h: Header, a: seq<Place>, b: seq<Place>)
    requires Valid(net) && AllReachable(net, h, a) && AllReachable(net, h, b)
    ensures AllReachable(net, h, a + b) && Total(net, h, a + b) == Total(net, h, a) + Total(net, h, b)
    decreases |a|
  {
    if a == [] {
      assert a + b == b;
    } else {
      assert (a + b)[1..] == a[1..] + b && (a + b)[0] == a[0];
      TotalAppend(net, h, a[1..], b);
    }
  }

  lemma {:induction false} TotalOne(net: Net, h: Header, p: Place)
    requires Valid(net) && Reachable(net, h, p)
    ensures Total(net, h, [p]) == Arrivals(net, h, p)
  {
    assert [p][1..] == [];
  }

  // ---------------------------------------------------------------- the broadcast tree

  // The tiles that a broadcast from s reaches by way of c.
  predicate Below(s: Pos, c: Pos, t: Pos) {
    if c.y > s.y then t.x == c.x && t.y >= c.y
    else if c.y < s.y then t.x == c.x && t.y <= c.y
    else if c.x > s.x then t.x >= c.x
    else if c.x < s.x then t.x <= c.x
    else true
  }

  // How often q is received from a hop that may be there.
  ghost function Times(net: Net, h: Header, there: bool, p: Place, q: Place): nat
    requires Valid(net) && (there ==> Reachable(net, h, p))
  {
    if there then Arrivals(net, h, p)[q] else 0
  }

  lemma {:induction false} MaybeTotal(net: Net, h: Header, ps: seq<Place>, there: bool, p: Place, q: Place)
    requires Valid(net) && AllReachable(net, h, ps) && (there ==> Reachable(net, h, p))
    ensures AllReachable(net, h, ps + Maybe(there, p))
    ensures Total(net, h, ps + Maybe(there, p))[q] == Total(net, h, ps)[q] + Times(net, h, there, p, q)
  {
    if there {
      TotalOne(net, h, p);
      TotalAppend(net, h, ps, [p]);
    } else {
      assert ps + [] == ps;
    }
  }

  lemma {:induction false} FourBranches(net: Net, h: Header, w1: bool, p1: Place, w2: bool, p2: Place,
                                        w3: bool, p3: Place, w4: bool, p4: Place, here: Place, q: Place)
    requires Valid(net) && here.node.ReceiveTile?
    requires (w1 ==> Reachable(net, h, p1)) && (w2 ==> Reachable(net, h, p2))
    requires (w3 ==> Reachable(net, h, p3)) && (w4 ==> Reachable(net, h, p4))
    ensures var ps := Maybe(w1, p1) + Maybe(w2, p2) + Maybe(w3, p3) + Maybe(w4, p4) + [here];
      && AllReachable(net, h, ps)
      && Total(net, h, ps)[q] ==
           Times(net, h, w1, p1, q) + Times(net, h, w2, p2, q) + Times(net, h, w3, p3, q) + Times(net, h, w4, p4, q)
           + (if q == here then 1 else 0)
  {
    var ps := Maybe(w1, p1);
    assert [] + ps == ps;
    MaybeTotal(net, h, [], w1, p1, q);
    MaybeTotal(net, h, ps, w2, p2, q);
    ps := ps + Maybe(w2, p2);
    MaybeTotal(net, h, ps, w3, p3, q);
    ps := ps + Maybe(w3, p3);
    MaybeTotal(net, h, ps, w4, p4, q);
    ps := ps + Maybe(w4, p4);
    TotalOne(net, h, here);
    TotalAppend(net, h, ps, [here]);
  }

  // A place of a broadcast from s.
  function Node(net: Net, s: Pos, c: Pos): Place {
    Place(TileId(net, c), Emesh, Manhattan(s, c))
  }

  // The hops of a broadcast at c, written out.
  lemma {:induction false} TreeHops(net: Net, h: Header, s: Pos, c: Pos)
    requires Valid(net) && OnMesh(net, h) && h.receiver.Broadcast? && InMesh(net, c) && s == Position(net, h.sender)
    ensures MeshRoute(net, h, Node(net, s, c)) ==
        Maybe(c.y >= s.y && InMesh(net, Pos(c.x, c.y + 1)), Node(net, s, Pos(c.x, c.y + 1)))
        + Maybe(c.y <= s.y && InMesh(net, Pos(c.x, c.y - 1)), Node(net, s, Pos(c.x, c.y - 1)))
        + Maybe(c.y == s.y && c.x >= s.x && InMesh(net, Pos(c.x + 1, c.y)), Node(net, s, Pos(c.x + 1, c.y)))
        + Maybe(c.y == s.y && c.x <= s.x && InMesh(net, Pos(c.x - 1, c.y)), Node(net, s, Pos(c.x - 1, c.y)))
        + [Place(TileId(net, c), ReceiveTile, Manhattan(s, c))]
  {
    PositionOfTile(net, c);
  }

  // One tile of the tree: itself and the four branches.
  lemma {:induction false} TimesSplit(net: Net, h: Header, s: Pos, c: Pos, q: Place)
    requires Valid(net) && OnMesh(net, h) && h.receiver.Broadcast? && InMesh(net, c) && s == Position(net, h.sender)
    requires forall d :: InMesh(net, d) ==> Reachable(net, h, Node(net, s, d))
    ensures var (up, down, right, left) := (Pos(c.x, c.y + 1), Pos(c.x, c.y - 1), Pos(c.x + 1, c.y), Pos(c.x - 1, c.y));
      Arrivals(net, h, Node(net, s, c))[q] ==
        Times(net, h, c.y >= s.y && InMesh(net, up), Node(net, s, up), q)
        + Times(net, h, c.y <= s.y && InMesh(net, down), Node(net, s, down), q)
        + Times(net, h, c.y == s.y && c.x >= s.x && InMesh(net, right), Node(net, s, right), q)
        + Times(net, h, c.y == s.y && c.x <= s.x && InMesh(net, left), Node(net, s, left), q)
        + (if q == Place(TileId(net, c), ReceiveTile, Manhattan(s, c)) then 1 else 0)
  {
    var (up, down, right, left) := (Pos(c.x, c.y + 1), Pos(c.x, c.y - 1), Pos(c.x + 1, c.y), Pos(c.x - 1, c.y));
    ArrivalsRoute(net, h, Node(net, s, c));
    TreeHops(net, h, s, c);
    FourBranches(net, h, c.y >= s.y && InMesh(net, up), Node(net, s, up),
                 c.y <= s.y && InMesh(net, down), Node(net, s, down),
                 c.y == s.y && c.x >= s.x && InMesh(net, right), Node(net, s, right),
                 c.y == s.y && c.x <= s.x && InMesh(net, left), Node(net, s, left),
                 Place(TileId(net, c), ReceiveTile, Manhattan(s, c)), q);
  }

  // From c a broadcast reaches each tile below c once, over as many links as the
  // tile is away from the sender, and nothing else.
  lemma {:induction false} TreeCovers(net: Net, h: Header, c: Pos, q: Place)
    requires Valid(net) && OnMesh(net, h) && h.receiver.Broadcast? && InMesh(net, c)
    ensures var s := Position(net, h.sender);
      && Reachable(net, h, Node(net, s, c))
      && Arrivals(net, h, Node(net, s, c))[q] ==
           if q.node.ReceiveTile? && IsApplicationTile(net, q.tile) && Below(s, c, Position(net, q.tile))
              && q.links == Manhattan(s, Position(net, q.tile)) then 1 else 0
    decreases net.width + net.height - Manhattan(Position(net, h.sender), c)
  {
    var s := Position(net, h.sender);
    TileOfPosition(net, h.sender);
    forall d | InMesh(net, d) ensures Reachable(net, h, Node(net, s, d)) {
      MeshRank(net, h, d, Manhattan(s, d));
    }
    TimesSplit(net, h, s, c, q);
    if c.y >= s.y && c.y + 1 < net.height {
      TreeCovers(net, h, Pos(c.x, c.y + 1), q);
    }
    if c.y <= s.y && c.y >= 1 {
      TreeCovers(net, h, Pos(c.x, c.y - 1), q);
    }
    if c.y == s.y && c.x >= s.x && c.x + 1 < net.width {
      TreeCovers(net, h, Pos(c.x + 1, c.y), q);
    }
    if c.y == s.y && c.x <= s.x && c.x >= 1 {
      TreeCovers(net, h, Pos(c.x - 1, c.y), q);
    }
    SameTile(net, c, q.tile);
  }

  lemma {:induction false} SameTile(net: Net, c: Pos, t: int)
    requires Valid(net) && InMesh(net, c)
    ensures t == TileId(net, c) <==> IsApplicationTile(net, t) && Position(net, t) == c
    ensures IsApplicationTile(net, t) ==> InMesh(net, Position(net, t))
  {
    PositionOfTile(net, c);
    if IsApplicationTile(net, t) {
      TileOfPosition(net, t);
    }
  }

  // ---------------------------------------------------------------- whole sends

  // XY routing ends at the receiver after as many links as it is away.
  lemma {:induction false} UnicastArrives(net: Net, h: Header, c: Pos, links: nat)
    requires Valid(net) && OnMesh(net, h) && h.receiver.One? && InMesh(net, c)
    ensures var p := Place(TileId(net, c), Emesh, links);
      && Reachable(net, h, p)
      && Arrivals(net, h, p) ==
           multiset{Place(h.receiver.tile, ReceiveTile, links + Manhattan(c, Position(net, h.receiver.tile)))}
    decreases Manhattan(c, Position(net, h.receiver.tile))
  {
    var (p, d) := (Place(TileId(net, c), Emesh, links), Position(net, h.receiver.tile));
    PositionOfTile(net, c);
    TileOfPosition(net, h.receiver.tile);
    MeshRank(net, h, c, links);
    ArrivalsRoute(net, h, p);
    if c == d {
      TotalOne(net, h, Place(p.tile, ReceiveTile, links));
    } else {
      UnicastArrives(net, h, Toward(c, d), links + 1);
      TotalOne(net, h, Place(TileId(net, Toward(c, d)), Emesh, links + 1));
    }
  }

  lemma {:induction false} DirectArrives(net: Net, h: Header, lo: int, hi: int, q: Place)
    requires Valid(net)
    ensures AllReachable(net, h, Direct(lo, hi))
    ensures Total(net, h, Direct(lo, hi))[q] == if q.node.ReceiveTile? && lo <= q.tile < hi && q.links == 0 then 1 else 0
    decreases hi - lo
  {
    if lo < hi {
      DirectArrives(net, h, lo + 1, hi, q);
      assert Direct(lo, hi)[1..] == Direct(lo + 1, hi);
    }
  }

  // The mesh links between two tiles; system tiles are reached without the mesh.
  function LinksTo(net: Net, s: int, t: int): nat
    requires Valid(net)
  {
    if IsApplicationTile(net, s) && IsApplicationTile(net, t) then Distance(net, s, t) else 0
  }

  // Each tile receives the packet, over the links between it and the sender.
  predicate Due(net: Net, sender: int, q: Place)
    requires Valid(net)
  {
    q.node.ReceiveTile? && IsTile(net, q.tile) && q.links == LinksTo(net, sender, q.tile)
  }

  function Sent(h: Header): Place { Place(h.sender, SendTile, 0) }

  lemma {:induction false} UnicastReaches(net: Net, h: Header)
    requires Valid(net) && ValidHeader(net, h) && h.receiver.One?
    ensures Arrivals(net, h, Sent(h)) ==
      multiset{Place(h.receiver.tile, ReceiveTile, LinksTo(net, h.sender, h.receiver.tile))}
  {
    ArrivalsRoute(net, h, Sent(h));
    if OnMesh(net, h) {
      TileOfPosition(net, h.sender);
      UnicastArrives(net, h, Position(net, h.sender), 0);
      TotalOne(net, h, Place(h.sender, Emesh, 0));
      assert Route(net, h, Sent(h)) == [Place(h.sender, Emesh, 0)];
    } else {
      var r := Place(h.receiver.tile, ReceiveTile, 0);
      assert Route(net, h, Sent(h)) == [r];
      TotalOne(net, h, r);
      LinksToSelf(net, h.sender);
    }
  }

  lemma LinksToSelf(net: Net, t: int)
    requires Valid(net)
    ensures LinksTo(net, t, t) == 0
  {}

  // A broadcast reaches every application and system tile exactly once.
  lemma {:induction false} BroadcastReaches(net: Net, h: Header, q: Place)
    requires Valid(net) && ValidHeader(net, h) && h.receiver.Broadcast?
    ensures Arrivals(net, h, Sent(h))[q] == if Due(net, h.sender, q) then 1 else 0
  {
    ArrivalsRoute(net, h, Sent(h));
    if IsApplicationTile(net, h.sender) {
      var s := Position(net, h.sender);
      TileOfPosition(net, h.sender);
      DirectArrives(net, h, net.width * net.height, net.total, q);
      TreeCovers(net, h, s, q);
      TotalOne(net, h, Node(net, s, s));
      TotalAppend(net, h, CornerCases(net, h), [Node(net, s, s)]);
    } else {
      DirectArrives(net, h, 0, net.total, q);
      assert Route(net, h, Sent(h)) == Direct(0, net.total);
    }
  }

  // netSend without broadcast capability: one packet to each of the first n tiles.
  ghost function FanOut(net: Net, sender: int, n: nat): multiset<Place>
    requires Valid(net) && IsTile(net, sender) && n <= net.total
  {
    if n == 0 then multiset{}
    else FanOut(net, sender, n - 1) + Arrivals(net, Header(sender, One(n - 1)), Sent(Header(sender, One(n - 1))))
  }

  lemma {:induction false} FanOutReaches(net: Net, sender: int, n: nat, q: Place)
    requires Valid(net) && IsTile(net, sender) && n <= net.total
    ensures FanOut(net, sender, n)[q] == if Due(net, sender, q) && q.tile < n then 1 else 0
  {
    if n > 0 {
      FanOutReaches(net, sender, n - 1, q);
      UnicastReaches(net, Header(sender, One(n - 1)));
    }
  }

  // Both ways of broadcasting deliver the same packets to the same tiles.
  lemma {:induction false} BroadcastEquivalence(net: Net, sender: int)
    requires Valid(net) && IsTile(net, sender)
    ensures Arrivals(net, Header(sender, Broadcast), Sent(Header(sender, Broadcast))) == FanOut(net, sender, net.total)
  {
    var h := Header(sender, Broadcast);
    forall q ensures Arrivals(net, h, Sent(h))[q] == FanOut(net, sender, net.total)[q] {
      BroadcastReaches(net, h, q);
      FanOutReaches(net, sender, net.total, q);
    }
  }
}
