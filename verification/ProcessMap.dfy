/**
 Which process simulates which tile: computeProcessToTileMapping of
 common/network/models/network_model_emesh_hop_by_hop.cc, and the default
 mapping, GenerateTileMap and the lookups of common/misc/config.cc.
 */
module ProcessMap {
  import opened Arithmetic

  type TileList = seq<int>

  // ---------------------------------------------------------------- partitions

  // How often tile t stands in all lists together.
  function Times(lists: seq<TileList>, t: int): nat {
    if lists == [] then 0 else Times(lists[..|lists| - 1], t) + multiset(lists[|lists| - 1])[t]
  }

  // Each of the tiles 0 .. n - 1 is in exactly one list exactly once, and nothing else is in any.
  ghost predicate Partition(lists: seq<TileList>, n: int) {
    forall t :: Times(lists, t) == if 0 <= t < n then 1 else 0
  }

  // If only list `owner` can have the tile, it has all occurrences.
  lemma {:induction false} TimesOwned(lists: seq<TileList>, t: int, owner: int, k: nat)
    requires k <= |lists|
    requires forall p :: 0 <= p < |lists| && p != owner ==> multiset(lists[p])[t] == 0
    ensures Times(lists[..k], t) == if 0 <= owner < k then multiset(lists[owner])[t] else 0
    decreases k
  {
    if k > 0 {
      assert lists[..k][..k - 1] == lists[..k - 1];
      TimesOwned(lists, t, owner, k - 1);
    }
  }

  // Two lists, or one list twice, cannot have a tile that occurs once.
  lemma {:induction false} TimesAtLeast(lists: seq<TileList>, t: int, p: int)
    requires 0 <= p < |lists|
    ensures multiset(lists[p])[t] <= Times(lists, t)
    ensures forall q :: 0 <= q < p ==> multiset(lists[p])[t] + multiset(lists[q])[t] <= Times(lists, t)
    decreases |lists|
  {
    var rest := lists[..|lists| - 1];
    if p < |rest| {
      TimesAtLeast(rest, t, p);
    } else {
      forall q | 0 <= q < p ensures multiset(lists[q])[t] <= Times(rest, t) {
        TimesAtLeast(rest, t, q);
      }
    }
  }

  // Some list has a tile that occurs.
  lemma {:induction false} TimesSome(lists: seq<TileList>, t: int) returns (p: nat)
    requires Times(lists, t) > 0
    ensures p < |lists| && t in lists[p]
    decreases |lists|
  {
    var last := |lists| - 1;
    if t in lists[last] {
      p := last;
    } else {
      p := TimesSome(lists[..last], t);
    }
  }

  // ---------------------------------------------------------------- slices of a row

  // n things in k slices of equal size, the last one taking what is left over.
  function SliceBase(n: nat, k: nat, i: nat): int
    requires k >= 1
  {
    i * (n / k)
  }

  function SliceSize(n: nat, k: nat, i: nat): int
    requires k >= 1
  {
    if i == k - 1 then n - (k - 1) * (n / k) else n / k
  }

  predicate InSlice(n: nat, k: nat, i: nat, x: int)
    requires k >= 1
  {
    SliceBase(n, k, i) <= x < SliceBase(n, k, i) + SliceSize(n, k, i)
  }

  function SliceOf(n: nat, k: nat, x: int): (i: int)
    requires k >= 1
  {
    if n / k == 0 then k - 1
    else if x / (n / k) >= k then k - 1 else x / (n / k)
  }

  lemma {:induction false} Slices(n: nat, k: nat, i: nat, x: int)
    requires 0 <= x < n && i < k
    ensures 0 <= SliceOf(n, k, x) < k
    ensures InSlice(n, k, i, x) <==> i == SliceOf(n, k, x)
  {
    var s := n / k;
    if s == 0 {
      assert i * s == 0 && (k - 1) * s == 0;
    } else {
      Quotient(x, s);
      SlicesOfSize(n, k, i, x, s, x / s);
      assert InSlice(n, k, i, x) <==> i * s <= x < i * s + (if i == k - 1 then n - (k - 1) * s else s);
    }
  }

  lemma {:induction false} SlicesOfSize(n: int, k: int, i: int, x: int, s: int, q: int)
    requires 0 <= x < n && 0 <= i < k && s >= 1 && q >= 0 && q * s <= x < q * s + s
    ensures i * s <= x < i * s + (if i == k - 1 then n - (k - 1) * s else s) <==> i == if q >= k then k - 1 else q
  {
    Steps(s, i, q);
    Steps(s, k - 1, q);
    SlicesByBase(n, k, i, x, s, q, i * s, q * s, (k - 1) * s);
  }

  // Multiples of s are at least s apart.
  lemma {:induction false} Steps(s: int, a: int, b: int)
    requires s >= 1
    ensures a < b ==> a * s + s <= b * s
    ensures b < a ==> b * s + s <= a * s
  {
    if a < b {
      Multiply(s, a + 1, b);
    } else if b < a {
      Multiply(s, b + 1, a);
    }
  }

  lemma SlicesByBase(n: int, k: int, i: int, x: int, s: int, q: int, bi: int, bq: int, bk: int)
    requires 0 <= x < n && 0 <= i < k && s >= 1 && q >= 0 && bq <= x < bq + s
    requires (i < q ==> bi + s <= bq) && (q < i ==> bq + s <= bi) && (i == q ==> bi == bq)
    requires (k - 1 < q ==> bk + s <= bq) && (q < k - 1 ==> bq + s <= bk) && (q == k - 1 ==> bk == bq)
    requires i == k - 1 ==> bi == bk
    ensures bi <= x < bi + (if i == k - 1 then n - bk else s) <==> i == if q >= k then k - 1 else q
  {}

  lemma {:induction false} Quotient(x: int, s: int)
    requires s >= 1 && x >= 0
    ensures 0 <= x / s && x / s * s <= x < x / s * s + s && s * (x / s) <= x
  {
    var q := x / s;
    assert x == s * q + x % s;
    assert q < 0 ==> s * q <= -s;
  }

  // ---------------------------------------------------------------- rectangles of the mesh

  function Col(w: nat, t: int): int
    requires w >= 1
  {
    t % w
  }

  function Row(w: nat, t: int): int
    requires w >= 1
  {
    t / w
  }

  lemma {:induction false} Cell(w: nat, x: int, y: int, t: int)
    requires 0 <= x < w
    ensures t == x + y * w <==> Col(w, t) == x && Row(w, t) == y
  {
    DivMod(w, y, x);
    assert t == w * (t / w) + t % w;
  }

  // list has the tiles of `before` and once more those between x0 and x1 and y0 and y1
  ghost predicate Adds(w: nat, before: TileList, list: TileList, x0: int, x1: int, y0: int, y1: int)
    requires w >= 1
  {
    forall t :: multiset(list)[t] ==
      multiset(before)[t] + if x0 <= Col(w, t) < x1 && y0 <= Row(w, t) < y1 then 1 else 0
  }

  lemma {:induction false} AddsCell(w: nat, before: TileList, list: TileList, x: int, y0: int, y: int)
    requires 0 <= x < w && y0 <= y && Adds(w, before, list, x, x + 1, y0, y)
    ensures Adds(w, before, list + [x + y * w], x, x + 1, y0, y + 1)
  {
    forall t ensures multiset(list + [x + y * w])[t] ==
      multiset(before)[t] + if x <= Col(w, t) < x + 1 && y0 <= Row(w, t) < y + 1 then 1 else 0
    {
      Cell(w, x, y, t);
    }
  }

  lemma {:induction false} AddsColumn(w: nat, a: TileList, b: TileList, c: TileList, x0: int, x: int, y0: int, y1: int)
    requires w >= 1 && x0 <= x && Adds(w, a, b, x0, x, y0, y1) && Adds(w, b, c, x, x + 1, y0, y1)
    ensures Adds(w, a, c, x0, x + 1, y0, y1)
  {}

  // The two innermost loops: the tiles of a rectangle go to a process.
  method PushRect(w: nat, list: TileList, baseX: nat, sizeX: nat, baseY: nat, sizeY: nat) returns (r: TileList)
    requires baseX + sizeX <= w && w >= 1
    ensures Adds(w, list, r, baseX, baseX + sizeX, baseY, baseY + sizeY)
  {
    r := list;
    for ii := 0 to sizeX
      invariant Adds(w, list, r, baseX, baseX + ii, baseY, baseY + sizeY)
    {
      ghost var before := r;
      r := PushColumn(w, r, baseX + ii, baseY, sizeY);
      AddsColumn(w, list, before, r, baseX, baseX + ii, baseY, baseY + sizeY);
    }
  }

  method PushColumn(w: nat, list: TileList, x: nat, baseY: nat, sizeY: nat) returns (r: TileList)
    requires x < w
    ensures Adds(w, list, r, x, x + 1, baseY, baseY + sizeY)
  {
    r := list;
    for jj := 0 to sizeY
      invariant Adds(w, list, r, x, x + 1, baseY, baseY + jj)
    {
      AddsCell(w, list, r, x, baseY, baseY + jj);
      r := r + [x + (baseY + jj) * w];
    }
  }

  // ---------------------------------------------------------------- the grid of processes

  lemma {:induction false} SliceWithin(n: nat, k: nat, i: nat)
    requires i < k
    ensures 0 <= SliceBase(n, k, i) && 0 <= SliceSize(n, k, i) && SliceBase(n, k, i) + SliceSize(n, k, i) <= n
  {
    var s := n / k;
    Quotient(n, k);
    Multiply(s, 0, i);
    Multiply(s, i, k - 1);
    assert (k - 1) * s + s == k * s;
    if i < k - 1 {
      Multiply(s, i + 1, k - 1);
    }
  }

  // floor(sqrt(n))
  function Isqrt(n: nat): (r: nat)
    ensures r * r <= n < (r + 1) * (r + 1)
  {
    if n == 0 then 0
    else
      var r := Isqrt(n - 1);
      if (r + 1) * (r + 1) <= n then r + 1 else r
  }

  // The first `cells` processes share the first `rows` rows of the mesh as a grid
  // of `across` columns, the others share the rest as one row.
  datatype Grid = Grid(w: nat, h: nat, procs: nat, across: nat, down: nat, cells: nat, rows: nat)

  predicate ValidGrid(g: Grid) {
    && g.w >= 1 && g.h >= 1 && g.across >= 1 && g.down >= 1
    && g.cells == g.across * g.down && g.cells <= g.procs
    && g.rows <= g.h && (g.cells == g.procs ==> g.rows == g.h)
  }

  function MakeGrid(w: nat, h: nat, procs: nat): (g: Grid)
    requires w >= 1 && h >= 1 && procs >= 1
    ensures ValidGrid(g) && g.w == w && g.h == h && g.procs == procs
    // as near a square as can be, with as many rows of processes and of tiles as fit
    ensures g.across * g.across <= procs < (g.across + 1) * (g.across + 1)
    ensures g.across * g.down <= procs < g.across * (g.down + 1)
    ensures g.rows * procs <= h * g.cells < (g.rows + 1) * procs
  {
    var across := Isqrt(procs);
    assert across >= 1;
    var down := procs / across;
    GridFits(h, procs, across);
    GridLargest(h, procs, across, down);
    Grid(w, h, procs, across, down, across * down, h * across * down / procs)
  }

  lemma {:induction false} GridFits(h: nat, procs: nat, across: nat)
    requires procs >= 1 && across >= 1 && across * across <= procs
    ensures var down := procs / across;
      && down >= 1 && across * down <= procs
      && 0 <= h * across * down / procs <= h
      && (across * down == procs ==> h * across * down / procs == h)
  {
    WholeRows(procs, across);
    var down := procs / across;
    assert h * across * down == h * (across * down);
    Share(h, across * down, procs);
  }

  lemma {:induction false} GridLargest(h: nat, procs: nat, across: nat, down: nat)
    requires procs >= 1 && across >= 1 && down == procs / across
    ensures across * down <= procs < across * (down + 1)
    ensures var rows := h * across * down / procs; rows * procs <= h * (across * down) < (rows + 1) * procs
  {
    Quotient(procs, across);
    assert h * across * down == h * (across * down);
    Quotient(h * (across * down), procs);
  }

  lemma {:induction false} WholeRows(procs: nat, across: nat)
    requires procs >= 1 && across >= 1 && across * across <= procs
    ensures procs / across >= 1 && across * (procs / across) <= procs
  {
    Quotient(procs, across);
    Multiply(across, 1, across);
  }

  // The part of h that cells out of procs get.
  lemma {:induction false} Share(h: nat, cells: nat, procs: nat)
    requires procs >= 1 && cells <= procs
    ensures 0 <= h * cells / procs <= h && (cells == procs ==> h * cells / procs == h)
  {
    Multiply(h, cells, procs);
    Multiply(h, 0, cells);
    Quotient(h * cells, procs);
    Steps(procs, h * cells / procs, h);
    if cells == procs {
      DivMod(procs, h, 0);
    }
  }

  // The rectangle of process p.
  function Left(g: Grid, p: nat): int
    requires ValidGrid(g) && p < g.procs
  {
    if p < g.cells then SliceBase(g.w, g.across, p % g.across) else SliceBase(g.w, g.procs - g.cells, p - g.cells)
  }

  function Width(g: Grid, p: nat): int
    requires ValidGrid(g) && p < g.procs
  {
    if p < g.cells then SliceSize(g.w, g.across, p % g.across) else SliceSize(g.w, g.procs - g.cells, p - g.cells)
  }

  function Top(g: Grid, p: nat): int
    requires ValidGrid(g) && p < g.procs
  {
    if p < g.cells then SliceBase(g.rows, g.down, p / g.across) else g.rows
  }

  function Height(g: Grid, p: nat): int
    requires ValidGrid(g) && p < g.procs
  {
    if p < g.cells then SliceSize(g.rows, g.down, p / g.across) else g.h - g.rows
  }

  predicate Inside(g: Grid, p: nat, x: int, y: int)
    requires ValidGrid(g) && p < g.procs
  {
    Left(g, p) <= x < Left(g, p) + Width(g, p) && Top(g, p) <= y < Top(g, p) + Height(g, p)
  }

  lemma {:induction false} RectWithin(g: Grid, p: nat)
    requires ValidGrid(g) && p < g.procs
    ensures 0 <= Left(g, p) && 0 <= Width(g, p) && Left(g, p) + Width(g, p) <= g.w
    ensures 0 <= Top(g, p) && 0 <= Height(g, p) && Top(g, p) + Height(g, p) <= if p < g.cells then g.rows else g.h
  {
    if p < g.cells {
      RowBelow(g.across, g.down, p);
      SliceWithin(g.w, g.across, p % g.across);
      SliceWithin(g.rows, g.down, p / g.across);
    } else {
      SliceWithin(g.w, g.procs - g.cells, p - g.cells);
    }
  }

  // The process a position belongs to.
  function Owner(g: Grid, x: int, y: int): int
    requires ValidGrid(g) && 0 <= x < g.w && 0 <= y < g.h
  {
    if y < g.rows then SliceOf(g.w, g.across, x) + SliceOf(g.rows, g.down, y) * g.across
    else g.cells + SliceOf(g.w, g.procs - g.cells, x)
  }

  // The rectangles tile the mesh.
  lemma {:induction false} OneRectangle(g: Grid, p: nat, x: int, y: int)
    requires ValidGrid(g) && p < g.procs && 0 <= x < g.w && 0 <= y < g.h
    ensures Inside(g, p, x, y) <==> p == Owner(g, x, y)
  {
    OwnerInGrid(g, x, y);
    RectWithin(g, p);
    if p < g.cells {
      if y < g.rows {
        RowBelow(g.across, g.down, p);
        Slices(g.w, g.across, p % g.across, x);
        Slices(g.rows, g.down, p / g.across, y);
        GridCell(g.across, SliceOf(g.w, g.across, x), SliceOf(g.rows, g.down, y), p);
      }
    } else if y >= g.rows {
      Slices(g.w, g.procs - g.cells, p - g.cells, x);
    }
  }

  lemma {:induction false} GridCell(across: nat, i: int, j: int, p: int)
    requires 0 <= i < across
    ensures p == i + j * across <==> p % across == i && p / across == j
  {
    Cell(across, i, j, p);
  }

  lemma {:induction false} OwnerInGrid(g: Grid, x: int, y: int)
    requires ValidGrid(g) && 0 <= x < g.w && 0 <= y < g.h
    ensures 0 <= Owner(g, x, y) < g.procs && (Owner(g, x, y) < g.cells <==> y < g.rows)
  {
    if y < g.rows {
      Slices(g.w, g.across, 0, x);
      Slices(g.rows, g.down, 0, y);
      CellBelow(g.across, g.down, SliceOf(g.w, g.across, x), SliceOf(g.rows, g.down, y));
    } else {
      Slices(g.w, g.procs - g.cells, 0, x);
    }
  }

  // Process p has the tiles of its rectangle.
  ghost predicate Filled(g: Grid, p: nat, list: TileList)
    requires ValidGrid(g) && p < g.procs
  {
    Adds(g.w, [], list, Left(g, p), Left(g, p) + Width(g, p), Top(g, p), Top(g, p) + Height(g, p))
  }

  // Column i and row j of the grid come next.
  predicate Before(g: Grid, p: nat, i: nat, j: nat)
    requires ValidGrid(g)
  {
    p < g.cells && (p % g.across < i || (p % g.across == i && p / g.across < j))
  }

  ghost predicate FilledBefore(g: Grid, lists: seq<TileList>, i: nat, j: nat)
    requires ValidGrid(g)
  {
    |lists| == g.procs && forall p :: 0 <= p < g.procs ==>
      if Before(g, p, i, j) then Filled(g, p, lists[p]) else lists[p] == []
  }

  // computeProcessToTileMapping of the hop-by-hop mesh
  method ComputeProcessToTileMapping(w: nat, h: nat, procs: nat) returns (lists: seq<TileList>)
    requires w >= 1 && h >= 1 && procs >= 1
    ensures |lists| == procs && Partition(lists, w * h)
    ensures forall p :: 0 <= p < procs ==> Filled(MakeGrid(w, h, procs), p, lists[p])
  {
    var g := MakeGrid(w, h, procs);
    lists := seq(procs, _ => []);
    for i := 0 to g.across
      invariant FilledBefore(g, lists, i, 0)
    {
      for j := 0 to g.down
        invariant FilledBefore(g, lists, i, j)
      {
        lists := FillCell(g, lists, i, j);
      }
      ColumnDone(g, lists, i);
    }
    GridDone(g, lists);
    for p := g.cells to procs
      invariant |lists| == procs
      invariant forall q :: 0 <= q < procs ==> if q < p then Filled(g, q, lists[q]) else lists[q] == []
    {
      var left := g.procs - g.cells;
      var baseX := (p - g.cells) * (w / left);
      var sizeX := if p == procs - 1 then w - (left - 1) * (w / left) else w / left;
      RectWithin(g, p);
      var list := PushRect(w, lists[p], baseX, sizeX, g.rows, h - g.rows);
      lists := lists[p := list];
    }
    AllFilled(g, lists);
  }

  method FillCell(g: Grid, lists: seq<TileList>, i: nat, j: nat) returns (r: seq<TileList>)
    requires ValidGrid(g) && i < g.across && j < g.down && FilledBefore(g, lists, i, j)
    ensures FilledBefore(g, r, i, j + 1)
  {
    var sizeX, sizeY := g.w / g.across, g.rows / g.down;
    var baseX, baseY := i * sizeX, j * sizeY;
    if i == g.across - 1 {
      sizeX := g.w - (g.across - 1) * sizeX;
    }
    if j == g.down - 1 {
      sizeY := g.rows - (g.down - 1) * sizeY;
    }
    var p := i + j * g.across;
    CellBelow(g.across, g.down, i, j);
    GridCell(g.across, i, j, p);
    RectWithin(g, p);
    var list := PushRect(g.w, lists[p], baseX, sizeX, baseY, sizeY);
    r := lists[p := list];
    forall q | 0 <= q < g.procs
      ensures if Before(g, q, i, j + 1) then Filled(g, q, r[q]) else r[q] == []
    {
      GridCell(g.across, i, j, q);
    }
  }

  lemma {:induction false} ColumnDone(g: Grid, lists: seq<TileList>, i: nat)
    requires ValidGrid(g) && FilledBefore(g, lists, i, g.down)
    ensures FilledBefore(g, lists, i + 1, 0)
  {
    forall p | 0 <= p < g.procs
      ensures if Before(g, p, i + 1, 0) then Filled(g, p, lists[p]) else lists[p] == []
    {
      if p < g.cells {
        RowBelow(g.across, g.down, p);
      }
    }
  }

  lemma {:induction false} GridDone(g: Grid, lists: seq<TileList>)
    requires ValidGrid(g) && FilledBefore(g, lists, g.across, 0)
    ensures forall p :: 0 <= p < g.procs ==> if p < g.cells then Filled(g, p, lists[p]) else lists[p] == []
  {
    forall p | 0 <= p < g.procs ensures if p < g.cells then Filled(g, p, lists[p]) else lists[p] == [] {
      if p < g.cells {
        RowBelow(g.across, g.down, p);
      }
    }
  }

  // Tile t is in the list of the owner of its position, and in no other.
  lemma {:induction false} AllFilled(g: Grid, lists: seq<TileList>)
    requires ValidGrid(g) && |lists| == g.procs && forall p :: 0 <= p < g.procs ==> Filled(g, p, lists[p])
    ensures Partition(lists, g.w * g.h)
  {
    forall t ensures Times(lists, t) == if 0 <= t < g.w * g.h then 1 else 0 {
      var (x, y) := (Col(g.w, t), Row(g.w, t));
      OnMesh(g, t);
      var owner := if 0 <= t < g.w * g.h then Owner(g, x, y) else -1;
      if 0 <= t < g.w * g.h {
        OwnerInGrid(g, x, y);
      }
      forall p | 0 <= p < g.procs ensures multiset(lists[p])[t] == if p == owner then 1 else 0 {
        assert Filled(g, p, lists[p]);
        RectWithin(g, p);
        if 0 <= t < g.w * g.h {
          OneRectangle(g, p, x, y);
        }
      }
      TimesOwned(lists, t, owner, |lists|);
      assert lists[..|lists|] == lists;
    }
  }

  lemma {:induction false} OnMesh(g: Grid, t: int)
    requires ValidGrid(g)
    ensures 0 <= Col(g.w, t) < g.w
    ensures 0 <= t < g.w * g.h <==> 0 <= Row(g.w, t) < g.h
  {
    if 0 <= t < g.w * g.h {
      RowBelow(g.w, g.h, t);
    } else if 0 <= Row(g.w, t) < g.h {
      assert t == g.w * Row(g.w, t) + Col(g.w, t);
      CellBelow(g.w, g.h, Col(g.w, t), Row(g.w, t));
    }
  }

  // Tiles 0 .. n - 1 dealt out in turn: `turns` to everyone, and one more to the first `extra`.
  predicate Dealt(lists: seq<TileList>, procs: nat, turns: nat, extra: nat) {
    && |lists| == procs
    && (forall p :: 0 <= p < procs ==> |lists[p]| == turns + if p < extra then 1 else 0)
    && (forall p, k :: 0 <= p < procs && 0 <= k < |lists[p]| ==> lists[p][k] == p + k * procs)
  }

  // computeProcessToTileMapping of Config
  method DefaultMapping(total: nat, procs: nat) returns (lists: seq<TileList>)
    requires procs >= 1
    ensures |lists| == procs && Partition(lists, total)
    ensures forall p, k :: 0 <= p < procs && 0 <= k < |lists[p]| ==> lists[p][k] == p + k * procs
    ensures forall p :: 0 <= p < procs ==> |lists[p]| == total / procs + if p < total % procs then 1 else 0
    ensures Dealt(lists, procs, total / procs, total % procs)
  {
    lists := seq(procs, _ => []);
    NoneYet(lists);
    var current := 0;
    ghost var turns := 0;
    for i := 0 to total
      invariant |lists| == procs && 0 <= current < procs && Partition(lists, i)
      invariant i == turns * procs + current && Dealt(lists, procs, turns, current)
    {
      OneMore(lists, current, i);
      DealtNext(lists, procs, turns, current, i);
      lists := lists[current := lists[current] + [i]];
      turns := if current + 1 == procs then turns + 1 else turns;
      current := (current + 1) % procs;
    }
    DivMod(procs, turns, current);
  }

  lemma {:induction false} DealtNext(lists: seq<TileList>, procs: nat, turns: nat, current: nat, i: nat)
    requires current < procs && i == turns * procs + current && Dealt(lists, procs, turns, current)
    ensures var (next, full) := (lists[current := lists[current] + [i]], current + 1 == procs);
      && (current + 1) % procs == (if full then 0 else current + 1)
      && i + 1 == (if full then turns + 1 else turns) * procs + (current + 1) % procs
      && Dealt(next, procs, if full then turns + 1 else turns, (current + 1) % procs)
  {
    if current + 1 < procs {
      DivMod(procs, 0, current + 1);
    } else {
      DivMod(procs, 1, 0);
      assert (turns + 1) * procs == turns * procs + procs;
    }
  }

  // Tile t is the t / procs-th of process t % procs, and no process has two tiles more than another.
  lemma {:induction false} DealtInTurn(lists: seq<TileList>, total: nat, procs: nat, t: nat)
    requires procs >= 1 && t < total && Dealt(lists, procs, total / procs, total % procs)
    ensures t / procs < |lists[t % procs]| && lists[t % procs][t / procs] == t
    ensures forall p, q :: 0 <= p < procs && 0 <= q < procs ==> |lists[p]| <= |lists[q]| + 1
  {
    var (k, p, turns, extra) := (t / procs, t % procs, total / procs, total % procs);
    assert t == k * procs + p && total == turns * procs + extra;
    TurnBelow(procs, k, p, turns, extra);
    assert lists[p][k] == p + k * procs;
  }

  lemma {:induction false} TurnBelow(procs: nat, k: nat, p: nat, turns: nat, extra: nat)
    requires p < procs && extra < procs && k * procs + p < turns * procs + extra
    ensures k < turns + if p < extra then 1 else 0
  {
    if k > turns {
      Multiply(procs, turns + 1, k);
    }
  }

  lemma NoneYet(lists: seq<TileList>)
    requires forall p :: 0 <= p < |lists| ==> lists[p] == []
    ensures Partition(lists, 0)
  {
    forall t ensures Times(lists, t) == 0 {
      TimesOwned(lists, t, -1, |lists|);
      assert lists[..|lists|] == lists;
    }
  }

  lemma {:induction false} TimesPush(lists: seq<TileList>, p: int, v: int, t: int)
    requires 0 <= p < |lists|
    ensures Times(lists[p := lists[p] + [v]], t) == Times(lists, t) + if t == v then 1 else 0
    decreases |lists|
  {
    var (n, next) := (|lists| - 1, lists[p := lists[p] + [v]]);
    if p < n {
      TimesPush(lists[..n], p, v, t);
      assert next[..n] == lists[..n][p := lists[p] + [v]];
    } else {
      assert next[..n] == lists[..n];
    }
  }

  lemma {:induction false} OneMore(lists: seq<TileList>, p: int, n: nat)
    requires 0 <= p < |lists| && Partition(lists, n)
    ensures Partition(lists[p := lists[p] + [n]], n + 1)
  {
    var next := lists[p := lists[p] + [n]];
    forall t ensures Times(next, t) == if 0 <= t < n + 1 then 1 else 0 {
      TimesPush(lists, p, n, t);
    }
  }

  // ---------------------------------------------------------------- GenerateTileMap

  // The tiles below `cut`.
  function Kept(list: TileList, cut: int): TileList {
    if list == [] then []
    else
      var (rest, last) := (list[..|list| - 1], list[|list| - 1]);
      if last < cut then Kept(rest, cut) + [last] else Kept(rest, cut)
  }

  lemma {:induction false} KeptTimes(list: TileList, cut: int, t: int)
    ensures multiset(Kept(list, cut))[t] == if t < cut then multiset(list)[t] else 0
    decreases |list|
  {
    if list != [] {
      var (rest, last) := (list[..|list| - 1], list[|list| - 1]);
      KeptTimes(rest, cut, t);
      assert list == rest + [last];
    }
  }

  lemma {:induction false} TimesKept(lists: seq<TileList>, kept: seq<TileList>, cut: int, t: int)
    requires |lists| == |kept| && forall p :: 0 <= p < |lists| ==> kept[p] == Kept(lists[p], cut)
    ensures Times(kept, t) == if t < cut then Times(lists, t) else 0
    decreases |lists|
  {
    if lists != [] {
      var n := |lists| - 1;
      TimesKept(lists[..n], kept[..n], cut, t);
      KeptTimes(lists[n], cut, t);
    }
  }

  // The reverse map names the list that a tile is in.
  predicate Agrees(lists: seq<TileList>, procOf: seq<int>) {
    forall p :: 0 <= p < |lists| ==> AllAt(lists[p], procOf, p)
  }

  predicate AllAt(list: TileList, procOf: seq<int>, p: int) {
    forall k :: 0 <= k < |list| ==> 0 <= list[k] < |procOf| && procOf[list[k]] == p
  }

  lemma {:induction false} AgreesPush(lists: seq<TileList>, procOf: seq<int>, p: int, v: int)
    requires Agrees(lists, procOf) && 0 <= p < |lists| && 0 <= v < |procOf|
    requires forall q :: 0 <= q < |lists| && q != p ==> v !in lists[q]
    ensures Agrees(lists[p := lists[p] + [v]], procOf[v := p])
  {
    var (next, procOf') := (lists[p := lists[p] + [v]], procOf[v := p]);
    forall q | 0 <= q < |next| ensures AllAt(next[q], procOf', q) {
      assert AllAt(lists[q], procOf, q);
      forall k | 0 <= k < |next[q]| ensures 0 <= next[q][k] < |procOf'| && procOf'[next[q][k]] == q {
        if q != p {
          assert next[q][k] in lists[q];
        }
      }
    }
  }

  // A tile of a partition is in one list only.
  lemma {:induction false} OnlyList(lists: seq<TileList>, n: int, t: int, p: int, q: int)
    requires Partition(lists, n) && 0 <= p < |lists| && 0 <= q < |lists| && t in lists[p] && t in lists[q]
    ensures p == q && 0 <= t < n && multiset(lists[p])[t] == 1
  {
    TimesAtLeast(lists, t, p);
    TimesAtLeast(lists, t, q);
    assert Times(lists, t) <= 1;
  }

  // The two maps together.
  datatype TileMap = TileMap(lists: seq<TileList>, procOf: seq<int>)

  // The first n tiles are mapped.
  ghost predicate Consistent(m: TileMap, n: int) {
    Partition(m.lists, n) && Agrees(m.lists, m.procOf)
  }

  // A tile goes to a process.
  function Put(m: TileMap, p: nat, tile: nat): TileMap
    requires p < |m.lists| && tile < |m.procOf|
  {
    TileMap(m.lists[p := m.lists[p] + [tile]], m.procOf[tile := p])
  }

  lemma {:induction false} PutConsistent(m: TileMap, p: nat, tile: nat, next: nat)
    requires p < |m.lists| && tile < |m.procOf| && Consistent(m, tile) && next == tile + 1
    ensures Consistent(Put(m, p, tile), next)
  {
    forall q | 0 <= q < |m.lists| ensures tile !in m.lists[q] {
      TimesAtLeast(m.lists, tile, q);
      assert Times(m.lists, tile) == 0;
    }
    OneMore(m.lists, p, tile);
    AgreesPush(m.lists, m.procOf, p, tile);
  }

  // The first k processes have their spawner tile as well, from tile `cut` on.
  predicate Spawned(before: TileMap, m: TileMap, cut: nat, k: nat) {
    && |m.lists| == |before.lists| && |m.procOf| == |before.procOf|
    && forall q :: 0 <= q < |before.lists| ==> SpawnedAt(before, m, cut, k, q)
  }

  predicate SpawnedAt(before: TileMap, m: TileMap, cut: nat, k: nat, q: nat)
    requires q < |before.lists| == |m.lists|
  {
    if q < k then
      m.lists[q] == before.lists[q] + [cut + q] && cut + q < |m.procOf| && m.procOf[cut + q] == q
    else m.lists[q] == before.lists[q]
  }

  lemma {:induction false} SpawnNext(before: TileMap, m: TileMap, cut: nat, k: nat, next: nat)
    requires Spawned(before, m, cut, k) && k < |m.lists| && cut + k < |m.procOf| && next == k + 1
    ensures Spawned(before, Put(m, k, cut + k), cut, next)
  {
    var m' := Put(m, k, cut + k);
    forall q | 0 <= q < |before.lists| ensures SpawnedAt(before, m', cut, next, q) {
      assert SpawnedAt(before, m, cut, k, q);
    }
  }

  // The tiles of a list that are below `cut` go to process p.
  function PutList(m: TileMap, p: nat, list: TileList, cut: int): (r: TileMap)
    requires p < |m.lists| && cut <= |m.procOf| && forall k :: 0 <= k < |list| ==> 0 <= list[k]
    ensures |r.lists| == |m.lists| && |r.procOf| == |m.procOf|
  {
    if list == [] then m
    else
      var (rest, last) := (PutList(m, p, list[..|list| - 1], cut), list[|list| - 1]);
      if last < cut then Put(rest, p, last) else rest
  }

  predicate Apart(a: TileList, b: TileList) {
    forall k :: 0 <= k < |a| ==> a[k] !in b
  }

  lemma {:induction false} ListsApart(mapping: seq<TileList>, n: nat, p: int, q: int, cut: int)
    requires Partition(mapping, n) && 0 <= p < |mapping| && 0 <= q < |mapping| && p != q
    ensures Apart(mapping[p], Kept(mapping[q], cut)) && Apart(mapping[p], [])
  {
    forall k | 0 <= k < |mapping[p]| ensures mapping[p][k] !in Kept(mapping[q], cut) {
      NotKept(mapping, n, mapping[p][k], p, q, cut);
    }
  }

  lemma {:induction false} PutListSpec(m: TileMap, p: nat, list: TileList, cut: int)
    requires p < |m.lists| && cut <= |m.procOf| && forall k :: 0 <= k < |list| ==> 0 <= list[k]
    requires Agrees(m.lists, m.procOf) && m.lists[p] == []
    requires forall q :: 0 <= q < |m.lists| && q != p ==> Apart(list, m.lists[q])
    ensures var r := PutList(m, p, list, cut);
      r.lists == m.lists[p := Kept(list, cut)] && Agrees(r.lists, r.procOf)
    decreases |list|
  {
    if list != [] {
      var (rest, last) := (list[..|list| - 1], list[|list| - 1]);
      forall q | 0 <= q < |m.lists| && q != p ensures Apart(rest, m.lists[q]) && last !in m.lists[q] {
        assert Apart(list, m.lists[q]);
      }
      PutListSpec(m, p, rest, cut);
      var r := PutList(m, p, rest, cut);
      if last < cut {
        AgreesPush(r.lists, r.procOf, p, last);
      }
    }
  }

  // A mapping whose entries are tile numbers.
  predicate Tiles(mapping: seq<TileList>) {
    forall p, k :: 0 <= p < |mapping| && 0 <= k < |mapping[p]| ==> 0 <= mapping[p][k]
  }

  // The first i lists are in place.
  ghost predicate Placed(m: TileMap, mapping: seq<TileList>, i: nat, cut: int) {
    && |m.lists| == |mapping| && Agrees(m.lists, m.procOf)
    && forall q :: 0 <= q < |mapping| ==> m.lists[q] == if q < i then Kept(mapping[q], cut) else []
  }

  lemma {:induction false} PutListPlaced(m: TileMap, mapping: seq<TileList>, i: nat, next: nat, cut: int, n: nat)
    requires i < |mapping| && next == i + 1 && cut <= |m.procOf| && Tiles(mapping) && Partition(mapping, n)
    requires Placed(m, mapping, i, cut)
    ensures Placed(PutList(m, i, mapping[i], cut), mapping, next, cut)
  {
    var list := mapping[i];
    forall q | 0 <= q < |m.lists| && q != i ensures Apart(list, m.lists[q]) {
      ListsApart(mapping, n, i, q, cut);
    }
    PutListSpec(m, i, list, cut);
  }

  lemma {:induction false} PartitionTiles(mapping: seq<TileList>, n: int)
    requires Partition(mapping, n)
    ensures Tiles(mapping)
  {
    forall p, k | 0 <= p < |mapping| && 0 <= k < |mapping[p]| ensures 0 <= mapping[p][k] {
      OnlyList(mapping, n, mapping[p][k], p, p);
    }
  }

  class Config {
    const full: bool
    const numProcesses: nat
    const applicationTiles: nat
    const totalTiles: nat
    var procToTileListMap: seq<TileList>
    var tileToProcMap: seq<int>

    // One tile more for the MCP, and in full mode one for each thread spawner.
    constructor (full: bool, numProcesses: nat, applicationTiles: nat)
      requires numProcesses > 0 && applicationTiles > 0 && (!full ==> numProcesses == 1)
      ensures this.full == full && this.numProcesses == numProcesses && this.applicationTiles == applicationTiles
      ensures Sized()
    {
      this.full, this.numProcesses, this.applicationTiles := full, numProcesses, applicationTiles;
      totalTiles := applicationTiles + 1 + if full then numProcesses else 0;
      procToTileListMap, tileToProcMap := [], [];
    }

    predicate Sized() {
      && numProcesses > 0 && applicationTiles > 0 && (!full ==> numProcesses == 1)
      && totalTiles == applicationTiles + 1 + if full then numProcesses else 0
    }

    // The tiles before the thread spawners.
    function Cut(): int {
      totalTiles - numProcesses - 1
    }

    function Map(): TileMap
      reads this
    {
      TileMap(procToTileListMap, tileToProcMap)
    }

    // Every tile belongs to exactly one process, once, and the reverse map says to which.
    ghost predicate Mapped()
      reads this
    {
      && Sized() && |procToTileListMap| == numProcesses && |tileToProcMap| == totalTiles
      && Consistent(Map(), totalTiles)
    }

    // Every tile goes to one process: the spawner of process p to process p, the MCP
    // to process 0, the others as the mapping says.
    method GenerateTileMap(mapping: seq<TileList>, ghost n: nat)
      requires Sized() && |mapping| == numProcesses && Cut() <= n && Partition(mapping, n)
      modifies this
      ensures Mapped()
      ensures forall p :: 0 <= p < numProcesses ==> Assigned(mapping, p, procToTileListMap[p])
      ensures full ==> forall p: nat :: p < numProcesses ==> tileToProcMap[ThreadSpawnerTile(p)] == p
      ensures tileToProcMap[totalTiles - 1] == 0
    {
      PlaceLists(mapping, n);
      ghost var placed := Map();
      PlaceSpawners();
      ghost var spawned := Map();
      PutConsistent(spawned, 0, totalTiles - 1, totalTiles);
      Place(0, totalTiles - 1);
      forall p: nat | p < numProcesses
        ensures Assigned(mapping, p, procToTileListMap[p]) && (full ==> tileToProcMap[ThreadSpawnerTile(p)] == p)
      {
        assert SpawnedAt(placed, spawned, Cut(), numProcesses, p);
      }
    }

    // The tiles that are neither thread spawners nor the MCP.
    method PlaceLists(mapping: seq<TileList>, ghost n: nat)
      requires Sized() && |mapping| == numProcesses && Cut() <= n && Partition(mapping, n)
      modifies this
      ensures |tileToProcMap| == totalTiles && |procToTileListMap| == numProcesses
      ensures Placed(Map(), mapping, numProcesses, Cut()) && Consistent(Map(), Cut())
    {
      PartitionTiles(mapping, n);
      procToTileListMap := seq(numProcesses, _ => []);
      tileToProcMap := seq(totalTiles, _ => 0);
      ghost var cut := Cut();
      for i := 0 to numProcesses
        invariant |tileToProcMap| == totalTiles && Placed(Map(), mapping, i, cut)
      {
        PutListPlaced(Map(), mapping, i, i + 1, cut, n);
        PlaceTiles(mapping[i], i);
      }
      KeptPartition(mapping, procToTileListMap, cut, n);
    }

    predicate Assigned(mapping: seq<TileList>, p: nat, list: TileList)
      requires p < |mapping|
    {
      list == Kept(mapping[p], Cut()) + [Cut() + p] + if p == 0 then [totalTiles - 1] else []
    }

    method PlaceSpawners()
      requires Sized() && |procToTileListMap| == numProcesses && |tileToProcMap| == totalTiles
      requires Consistent(Map(), Cut())
      modifies this
      ensures |procToTileListMap| == numProcesses && |tileToProcMap| == totalTiles
      ensures Spawned(old(Map()), Map(), Cut(), numProcesses) && Consistent(Map(), totalTiles - 1)
    {
      var cut := totalTiles - numProcesses - 1;
      ghost var before := Map();
      for p := 0 to numProcesses
        invariant |procToTileListMap| == numProcesses && |tileToProcMap| == totalTiles
        invariant Spawned(before, Map(), cut, p) && Consistent(Map(), cut + p)
      {
        SpawnNext(before, Map(), cut, p, p + 1);
        PutConsistent(Map(), p, cut + p, cut + (p + 1));
        Place(p, cut + p);
      }
    }

    method Place(p: nat, tile: nat)
      requires p < |procToTileListMap| && tile < |tileToProcMap|
      modifies this
      ensures Map() == Put(old(Map()), p, tile)
    {
      tileToProcMap := tileToProcMap[tile := p];
      procToTileListMap := procToTileListMap[p := procToTileListMap[p] + [tile]];
    }

    // The tiles of process i that are neither thread spawners nor the MCP.
    method PlaceTiles(list: TileList, i: nat)
      requires Sized() && i < |procToTileListMap| && |tileToProcMap| == totalTiles
      requires forall k :: 0 <= k < |list| ==> 0 <= list[k]
      modifies this
      ensures Map() == PutList(old(Map()), i, list, Cut())
    {
      for k := 0 to |list|
        invariant |procToTileListMap| == |old(procToTileListMap)| && |tileToProcMap| == totalTiles
        invariant Map() == PutList(old(Map()), i, list[..k], Cut())
      {
        assert list[..k + 1][..k] == list[..k];
        if list[k] < totalTiles - numProcesses - 1 {
          Place(i, list[k]);
        }
      }
      assert list[..|list|] == list;
    }

    // getThreadSpawnerTileNum
    function ThreadSpawnerTile(p: nat): (t: int)
      requires Sized() && p < numProcesses
      ensures full ==> t == applicationTiles + p
      ensures !full ==> t == -1
    {
      if full then totalTiles - (1 + numProcesses - p) else -1
    }

    // getIndexFromTileID
    method GetIndexFromTileID(p: nat, tile: int) returns (index: int)
      requires Mapped() && p < numProcesses
      ensures index == IndexOf(procToTileListMap[p], tile)
      ensures index >= 0 <==> 0 <= tile < totalTiles && tileToProcMap[tile] == p
    {
      var list := procToTileListMap[p];
      ListedWhere(procToTileListMap, tileToProcMap, totalTiles, p, tile);
      for i := 0 to |list|
        invariant tile !in list[..i]
      {
        if list[i] == tile {
          FirstIndex(list, tile, i);
          return i;
        }
        assert list[..i + 1] == list[..i] + [list[i]];
      }
      assert list[..|list|] == list;
      FirstIndex(list, tile, |list|);
      return -1;
    }
  }

  lemma {:induction false} KeptPartition(mapping: seq<TileList>, lists: seq<TileList>, cut: int, n: nat)
    requires Partition(mapping, n) && cut <= n && |lists| == |mapping|
    requires forall q :: 0 <= q < |mapping| ==> lists[q] == Kept(mapping[q], cut)
    ensures Partition(lists, cut)
  {
    forall t ensures Times(lists, t) == if 0 <= t < cut then 1 else 0 {
      TimesKept(mapping, lists, cut, t);
    }
  }

  lemma {:induction false} NotKept(mapping: seq<TileList>, n: nat, t: int, p: int, q: int, cut: int)
    requires Partition(mapping, n) && 0 <= p < |mapping| && 0 <= q < |mapping| && p != q && t in mapping[p]
    ensures t !in Kept(mapping[q], cut)
  {
    KeptTimes(mapping[q], cut, t);
    if t in mapping[q] {
      OnlyList(mapping, n, t, p, q);
    }
  }

  // ---------------------------------------------------------------- lookups

  // The first index of a tile, or -1.
  function IndexOf(list: TileList, t: int): (k: int)
    ensures -1 <= k < |list| && (k >= 0 ==> list[k] == t) && (k == -1 <==> t !in list)
  {
    if list == [] then -1
    else if list[0] == t then 0
    else var k := IndexOf(list[1..], t); if k < 0 then -1 else k + 1
  }

  // getTileIDFromIndex
  function TileAt(list: TileList, k: nat): int {
    if k < |list| then list[k] else -1
  }

  lemma {:induction false} FirstIndex(list: TileList, t: int, k: nat)
    requires k <= |list| && t !in list[..k]
    ensures k < |list| && list[k] == t ==> IndexOf(list, t) == k
    ensures k == |list| ==> IndexOf(list, t) == -1
    decreases |list|
  {
    if k > 0 {
      assert list[0] in list[..k];
      assert list[1..][..k - 1] == list[..k][1..];
      FirstIndex(list[1..], t, k - 1);
    }
  }

  lemma {:induction false} ListedWhere(lists: seq<TileList>, procOf: seq<int>, n: int, p: int, t: int)
    requires Partition(lists, n) && Agrees(lists, procOf) && |procOf| == n && 0 <= p < |lists|
    ensures t in lists[p] <==> 0 <= t < n && procOf[t] == p
  {
    if 0 <= t < n {
      assert Times(lists, t) == 1;
      var q := TimesSome(lists, t);
      var k :| 0 <= k < |lists[q]| && lists[q][k] == t;
      assert procOf[lists[q][k]] == q;
    }
    if t in lists[p] {
      var k :| 0 <= k < |lists[p]| && lists[p][k] == t;
      assert procOf[lists[p][k]] == p;
    }
  }

  // The lookups undo each other: on the tiles of a process, and on its indices.
  lemma {:induction false} LookupsInvert(lists: seq<TileList>, procOf: seq<int>, n: int, p: int, t: int, k: nat)
    requires Partition(lists, n) && Agrees(lists, procOf) && |procOf| == n && 0 <= p < |lists|
    ensures 0 <= t < n && procOf[t] == p ==> IndexOf(lists[p], t) >= 0 && TileAt(lists[p], IndexOf(lists[p], t)) == t
    ensures k < |lists[p]| ==> IndexOf(lists[p], TileAt(lists[p], k)) == k
    ensures k < |lists[p]| <==> TileAt(lists[p], k) != -1
  {
    ListedWhere(lists, procOf, n, p, t);
    if k < |lists[p]| {
      var v := lists[p][k];
      OnlyList(lists, n, v, p, p);
      SameIndex(lists[p], v, k, IndexOf(lists[p], v));
    }
  }

  lemma {:induction false} SameIndex(list: TileList, v: int, a: int, b: int)
    requires 0 <= a < |list| && 0 <= b < |list| && list[a] == v && list[b] == v && multiset(list)[v] == 1
    ensures a == b
  {
    if a < b {
      TwoPlaces(list, a, b);
    } else if b < a {
      TwoPlaces(list, b, a);
    }
  }

  lemma {:induction false} TwoPlaces(list: TileList, i: int, j: int)
    requires 0 <= i < j < |list| && list[i] == list[j]
    ensures multiset(list)[list[i]] >= 2
  {
    var (a, b) := (list[..j], list[j..]);
    assert list == a + b && a[i] == list[i] && b[0] == list[i];
    assert list[i] in multiset(a) && list[i] in multiset(b);
  }
}
