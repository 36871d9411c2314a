/**
 common/misc/interval_tree.cc as it is: linked node objects with parent
 pointers and stored heights, changed in place.  The ghost field `tree` is the
 value the objects represent; every method is proved to turn it into what the
 functions of AvlTree say.
 */
module IntervalTree {
  import opened AvlTree
  import IntervalSearch

  class Node {
    var parent: Node?
    var left: Node?
    var right: Node?
    var height: int
    var key: nat
    var interval: Interval

    // initialize(interval)
    constructor (interval: Interval)
      ensures Fields() == Links(null, null, null, 1, Item(interval.first, interval))
    {
      this.parent, this.left, this.right := null, null, null;
      this.height, this.key, this.interval := 1, interval.first, interval;
    }

    ghost function Fields(): Links
      reads this
    {
      Links(parent, left, right, height, Item(key, interval))
    }
  }

  // The contents of all fields of one object.
  datatype Links = Links(parent: Node?, left: Node?, right: Node?, height: int, item: Item)

  datatype ChildDirection = Unknown | Left | Right
  datatype RotationDirection = Clockwise | AntiClockwise

  // ---------------------------------------------------------------- what a value says about fields

  // The object a subtree hangs by.
  ghost function Root(t: Tree<Node>): Node? {
    if t.Leaf? then null else t.lab.entry.cell
  }

  ghost function Holder(c: Ctx<Node>): Node? {
    if c.Top? then null else c.lab.entry.cell
  }

  // The object at the very top when `hole` hangs in `c`.
  ghost function RootIn(c: Ctx<Node>, hole: Node?): Node? {
    if c.Top? then hole else RootIn(c.up, c.lab.entry.cell)
  }

  // The fields of object `n` when `t` hangs below `parent`.
  ghost function LinksIn(t: Tree<Node>, parent: Node?, n: Node): Links
    requires n in Cells(t)
  {
    var cell := t.lab.entry.cell;
    if n == cell then Links(parent, Root(t.left), Root(t.right), t.lab.height, t.lab.entry.item)
    else if n in Cells(t.left) then LinksIn(t.left, cell, n)
    else LinksIn(t.right, cell, n)
  }

  // The fields of object `n` of the surroundings when `hole` hangs in them.
  ghost function LinksAround(c: Ctx<Node>, hole: Node?, n: Node): Links
    requires n in CtxCells(c)
  {
    var cell, side := c.lab.entry.cell, if c.InLeft? then c.right else c.left;
    if n == cell then
      var (l, r) := if c.InLeft? then (hole, Root(side)) else (Root(side), hole);
      Links(Holder(c.up), l, r, c.lab.height, c.lab.entry.item)
    else if n in Cells(side) then LinksIn(side, cell, n)
    else LinksAround(c.up, cell, n)
  }

  // The fields at the root of `t`, and below it.
  lemma {:induction false} LinksHere(t: Tree<Node>, p: Node?)
    requires t.Branch? && Distinct(t)
    ensures Root(t) in Cells(t) && Cells(t.left) + Cells(t.right) <= Cells(t)
    ensures LinksIn(t, p, Root(t)) == Links(p, Root(t.left), Root(t.right), t.lab.height, t.lab.entry.item)
    ensures t.left.Branch? ==>
      && Root(t.left) in Cells(t.left) && Root(t.left) != Root(t)
      && LinksIn(t, p, Root(t.left)) == LinksIn(t.left, Root(t), Root(t.left))
      && LinksIn(t, p, Root(t.left)).height == Height(t.left)
    ensures t.right.Branch? ==>
      && Root(t.right) in Cells(t.right) && Root(t.right) != Root(t)
      && LinksIn(t, p, Root(t.right)) == LinksIn(t.right, Root(t), Root(t.right))
      && LinksIn(t, p, Root(t.right)).height == Height(t.right)
    ensures t.left.Branch? ==> Root(t.left) != Root(t.right)
  {}

  lemma {:induction false} LinksGrand(t: Tree<Node>, p: Node?, n: Node)
    requires t.Branch? && Distinct(t)
    ensures n in Cells(t.left) ==> n in Cells(t) && n != Root(t) && LinksIn(t, p, n) == LinksIn(t.left, Root(t), n)
    ensures n in Cells(t.right) ==> n in Cells(t) && n != Root(t) && LinksIn(t, p, n) == LinksIn(t.right, Root(t), n)
  {}

  // The grandchildren's fields, reached through child `s`.
  lemma {:induction false} LinksGrandchildren(t: Tree<Node>, s: Tree<Node>, p: Node?)
    requires t.Branch? && Distinct(t) && s.Branch? && (s == t.left || s == t.right)
    ensures s.left.Branch? ==> Root(s.left) in Cells(t) && LinksIn(t, p, Root(s.left)).height == Height(s.left)
    ensures s.right.Branch? ==> Root(s.right) in Cells(t) && LinksIn(t, p, Root(s.right)).height == Height(s.right)
    ensures s.left.Branch? ==> Root(s.left) != Root(t)
    ensures s.right.Branch? ==> Root(s.right) != Root(t)
  {
    LinksHere(s, Root(t));
    if s.left.Branch? {
      LinksGrand(t, p, Root(s.left));
    }
    if s.right.Branch? {
      LinksGrand(t, p, Root(s.right));
    }
  }

  // Handing a subtree to another parent concerns its root only.
  lemma {:induction false} LinksReparented(t: Tree<Node>, p: Node?, q: Node?, n: Node)
    requires n in Cells(t)
    ensures LinksIn(t, q, n) == if n == Root(t) then LinksIn(t, p, n).(parent := q) else LinksIn(t, p, n)
  {}

  // Hanging another object in the hole concerns the holder only.
  lemma {:induction false} LinksRehung(c: Ctx<Node>, h: Node?, k: Node?, n: Node)
    requires n in CtxCells(c)
    ensures LinksAround(c, k, n) ==
      if n != Holder(c) then LinksAround(c, h, n)
      else if c.InLeft? then LinksAround(c, h, n).(left := k)
      else LinksAround(c, h, n).(right := k)
  {}

  // What a rotation changes, object by object.
  lemma {:induction false} LinksClockwise(t: Tree<Node>, p: Node?, n: Node)
    requires t.Branch? && t.left.Branch? && Distinct(t) && n in Cells(t)
    ensures n in Cells(RotateClockwise(t))
    ensures var (x, y, b) := (Root(t.left), Root(t), Root(t.left.right));
      var (was, now) := (LinksIn(t, p, n), LinksIn(RotateClockwise(t), p, n));
      now ==
        if n == y then was.(parent := x, left := b, height := RotateClockwise(t).right.lab.height)
        else if n == x then was.(parent := p, right := y, height := RotateClockwise(t).lab.height)
        else if n == b then was.(parent := y)
        else was
  {
    var (a, b, r) := (t.left.left, t.left.right, t.right);
    var y := RotateClockwise(t).right;
    assert Cells(y) == {t.lab.entry.cell} + Cells(b) + Cells(r);
    assert Cells(RotateClockwise(t)) == {t.left.lab.entry.cell} + Cells(a) + Cells(y);
    if n in Cells(b) {
      LinksReparented(b, Root(t.left), Root(t), n);
    }
  }

  lemma {:induction false} LinksAntiClockwise(t: Tree<Node>, p: Node?, n: Node)
    requires t.Branch? && t.right.Branch? && Distinct(t) && n in Cells(t)
    ensures n in Cells(RotateAntiClockwise(t))
    ensures var (x, y, b) := (Root(t.right), Root(t), Root(t.right.left));
      var (was, now) := (LinksIn(t, p, n), LinksIn(RotateAntiClockwise(t), p, n));
      now ==
        if n == y then was.(parent := x, right := b, height := RotateAntiClockwise(t).left.lab.height)
        else if n == x then was.(parent := p, left := y, height := RotateAntiClockwise(t).lab.height)
        else if n == b then was.(parent := y)
        else was
  {
    var (l, b, a) := (t.left, t.right.left, t.right.right);
    var y := RotateAntiClockwise(t).left;
    assert Cells(y) == {t.lab.entry.cell} + Cells(l) + Cells(b);
    assert Cells(RotateAntiClockwise(t)) == {t.right.lab.entry.cell} + Cells(y) + Cells(a);
    if n in Cells(b) {
      LinksReparented(b, Root(t.right), Root(t), n);
    }
  }

  // A subtree inside a whole tree.
  lemma {:induction false} LinksPlugged(c: Ctx<Node>, t: Tree<Node>, n: Node)
    requires DistinctIn(c, t) && n in Cells(t) + CtxCells(c)
    ensures n in Cells(Plug(c, t))
    ensures LinksIn(Plug(c, t), null, n) ==
      if n in Cells(t) then LinksIn(t, Holder(c), n) else LinksAround(c, Root(t), n)
    decreases c
  {
    if !c.Top? {
      EncloseCells(c, t);
      LinksPlugged(c.up, Enclose(c, t), n);
    }
  }

  ghost function Length<T>(l: List<T>): nat {
    if l.Nil? then 0 else 1 + Length(l.tail)
  }

  // Keys tell on which side of its parent a subtree hangs.
  ghost predicate SideByKey(c: Ctx<Node>, key: nat) {
    c.Top? || (c.InRight? <==> c.lab.entry.item.key < key)
  }

  ghost function Only(n: Node?): set<Node> {
    if n == null then {} else {n}
  }

  // The fields of `n` when `t` hangs in `c`.
  ghost function LinksAt(c: Ctx<Node>, t: Tree<Node>, n: Node): Links
    requires n in Cells(t) + CtxCells(c)
  {
    if n in Cells(t) then LinksIn(t, Holder(c), n) else LinksAround(c, Root(t), n)
  }

  // The fields of all objects.
  ghost function FieldMap(c: Ctx<Node>, t: Tree<Node>): map<Node, Links> {
    map n: Node | n in Cells(t) + CtxCells(c) :: LinksAt(c, t, n)
  }

  lemma {:induction false} HolderOutside(c: Ctx<Node>, t: Tree<Node>)
    requires DistinctIn(c, t)
    ensures !c.Top? ==> Holder(c) in CtxCells(c) && Holder(c) !in Cells(t)
  {}

  // ---------------------------------------------------------------- rotation on fields

  ghost function HeightIn(m: map<Node, Links>, n: Node?): int
    requires n == null || n in m
  {
    if n == null then 0 else m[n].height
  }

  // The child of y that a rotation lifts, the subtree that changes sides, and those that stay.
  ghost function Lifted(d: RotationDirection, k: Links): Node? {
    if d == Clockwise then k.left else k.right
  }

  ghost function Stays(d: RotationDirection, k: Links): Node? {
    if d == Clockwise then k.right else k.left
  }

  // The objects a rotation touches are there and are different ones.
  ghost predicate Rotor(d: RotationDirection, m: map<Node, Links>, y: Node) {
    && y in m
    && (var (x, r, p) := (Lifted(d, m[y]), Stays(d, m[y]), m[y].parent);
        && x != null && x in m && x != y && p !in [x, y] && r !in [x, y]
        && (p == null || p in m) && (r == null || r in m)
        && (var (a, b) := (Lifted(d, m[x]), Stays(d, m[x]));
            && (a == null || a in m) && (b == null || b in m)
            && a !in [x, y] && b !in [x, y] && (b == null || b != p)))
  }

  // x takes the place of y below p, and b moves from x to y.
  ghost function Relinked(d: RotationDirection, was: Links, n: Node,
                          x: Node, y: Node, b: Node?, p: Node?, key: nat): Links {
    if n == y then (if d == Clockwise then was.(parent := x, left := b) else was.(parent := x, right := b))
    else if n == x then (if d == Clockwise then was.(parent := p, right := y) else was.(parent := p, left := y))
    else if n == b then was.(parent := y)
    else if n == p then (if was.item.key < key then was.(right := x) else was.(left := x))
    else was
  }

  ghost function Resized(was: Links, n: Node, x: Node, y: Node, hx: int, hy: int): Links {
    if n == y then was.(height := hy) else if n == x then was.(height := hx) else was
  }

  ghost function RelinkedMap(d: RotationDirection, m: map<Node, Links>, y: Node): map<Node, Links>
    requires Rotor(d, m, y)
  {
    var x := Lifted(d, m[y]);
    map n: Node | n in m :: Relinked(d, m[n], n, x, y, Stays(d, m[x]), m[y].parent, m[x].item.key)
  }

  // The fields of all objects after performRotation(y, d).
  ghost function Rotated(d: RotationDirection, m: map<Node, Links>, y: Node): map<Node, Links>
    requires Rotor(d, m, y)
  {
    var x := Lifted(d, m[y]);
    var hy := Max(HeightIn(m, Stays(d, m[x])), HeightIn(m, Stays(d, m[y]))) + 1;
    var hx := Max(HeightIn(m, Lifted(d, m[x])), hy) + 1;
    map n: Node | n in m :: Resized(Relinked(d, m[n], n, x, y, Stays(d, m[x]), m[y].parent, m[x].item.key), n, x, y, hx, hy)
  }

  // The fields of all objects after updateHeight(n).
  ghost function Heightened(m: map<Node, Links>, n: Node): map<Node, Links>
    requires n in m && (m[n].left == null || m[n].left in m) && (m[n].right == null || m[n].right in m)
  {
    m[n := m[n].(height := Max(HeightIn(m, m[n].left), HeightIn(m, m[n].right)) + 1)]
  }

  lemma {:induction false} RotatedSteps(d: RotationDirection, m: map<Node, Links>, y: Node)
    requires Rotor(d, m, y)
    ensures var (k, x) := (RelinkedMap(d, m, y), Lifted(d, m[y]));
      && (k[y].left == null || k[y].left in k) && (k[y].right == null || k[y].right in k)
      && (k[x].left == null || k[x].left in k) && (k[x].right == null || k[x].right in k)
      && Heightened(Heightened(k, y), x) == Rotated(d, m, y)
  {}

  lemma {:induction false} RotorClockwise(c: Ctx<Node>, t: Tree<Node>)
    requires DistinctIn(c, t) && t.Branch? && t.left.Branch?
    ensures var (m, y, x) := (FieldMap(c, t), Root(t), Root(t.left));
      && Rotor(Clockwise, m, y)
      && m[y].parent == Holder(c) && m[y].left == x && m[x].left == Root(t.left.left) && m[x].right == Root(t.left.right)
      && m[x].item == t.left.lab.entry.item
      && HeightIn(m, m[x].left) == Height(t.left.left) && HeightIn(m, m[x].right) == Height(t.left.right)
      && HeightIn(m, m[y].right) == Height(t.right)
  {
    LinksHere(t, Holder(c));
    LinksHere(t.left, Root(t));
    LinksGrandchildren(t, t.left, Holder(c));
    HolderOutside(c, t);
  }

  lemma {:induction false} RotorAntiClockwise(c: Ctx<Node>, t: Tree<Node>)
    requires DistinctIn(c, t) && t.Branch? && t.right.Branch?
    ensures var (m, y, x) := (FieldMap(c, t), Root(t), Root(t.right));
      && Rotor(AntiClockwise, m, y)
      && m[y].parent == Holder(c) && m[y].right == x && m[x].left == Root(t.right.left) && m[x].right == Root(t.right.right)
      && m[x].item == t.right.lab.entry.item
      && HeightIn(m, m[x].left) == Height(t.right.left) && HeightIn(m, m[x].right) == Height(t.right.right)
      && HeightIn(m, m[y].left) == Height(t.left)
  {
    LinksHere(t, Holder(c));
    LinksHere(t.right, Root(t));
    LinksGrandchildren(t, t.right, Holder(c));
    HolderOutside(c, t);
  }

  // Rotating the objects is rotating the tree.
  lemma {:induction false} RotatedClockwise(c: Ctx<Node>, t: Tree<Node>)
    requires DistinctIn(c, t) && t.Branch? && t.left.Branch? && SideByKey(c, Key(t.left))
    ensures Rotor(Clockwise, FieldMap(c, t), Root(t)) && DistinctIn(c, RotateClockwise(t))
    ensures Rotated(Clockwise, FieldMap(c, t), Root(t)) == FieldMap(c, RotateClockwise(t))
  {
    RotorClockwise(c, t);
    ClockwiseCells(t);
    var (m, m', t') := (FieldMap(c, t), Rotated(Clockwise, FieldMap(c, t), Root(t)), RotateClockwise(t));
    forall n | n in m ensures m'[n] == LinksAt(c, t', n) {
      if n in Cells(t) {
        LinksClockwise(t, Holder(c), n);
      } else {
        LinksRehung(c, Root(t), Root(t.left), n);
      }
    }
  }

  lemma {:induction false} RotatedAntiClockwise(c: Ctx<Node>, t: Tree<Node>)
    requires DistinctIn(c, t) && t.Branch? && t.right.Branch? && SideByKey(c, Key(t.right))
    ensures Rotor(AntiClockwise, FieldMap(c, t), Root(t)) && DistinctIn(c, RotateAntiClockwise(t))
    ensures Rotated(AntiClockwise, FieldMap(c, t), Root(t)) == FieldMap(c, RotateAntiClockwise(t))
  {
    RotorAntiClockwise(c, t);
    AntiClockwiseCells(t);
    var (m, m', t') := (FieldMap(c, t), Rotated(AntiClockwise, FieldMap(c, t), Root(t)), RotateAntiClockwise(t));
    forall n | n in m ensures m'[n] == LinksAt(c, t', n) {
      if n in Cells(t) {
        LinksAntiClockwise(t, Holder(c), n);
      } else {
        LinksRehung(c, Root(t), Root(t.right), n);
      }
    }
  }

  // ---------------------------------------------------------------- moving the focus

  // Looking from one level up, or down, says the same about every field.
  lemma {:induction false} RefocusUp(c: Ctx<Node>, t: Tree<Node>)
    requires !c.Top? && DistinctIn(c, t)
    ensures DistinctIn(c.up, Enclose(c, t))
    ensures FieldMap(c.up, Enclose(c, t)) == FieldMap(c, t)
    ensures RootIn(c.up, Root(Enclose(c, t))) == RootIn(c, Root(t))
  {
    EncloseCells(c, t);
    forall n | n in Cells(t) + CtxCells(c) ensures LinksAt(c.up, Enclose(c, t), n) == LinksAt(c, t, n) {}
  }

  lemma {:induction false} RefocusDown(c: Ctx<Node>, t: Tree<Node>, d: Ctx<Node>, s: Tree<Node>)
    requires t.Branch? && DistinctIn(c, t)
    requires (d == InLeft(t.lab, t.right, c) && s == t.left) || (d == InRight(t.lab, t.left, c) && s == t.right)
    ensures DistinctIn(d, s)
    ensures FieldMap(d, s) == FieldMap(c, t) && RootIn(d, Root(s)) == RootIn(c, Root(t))
  {
    assert Enclose(d, s) == t;
    RefocusUp(d, s);
  }

  lemma {:induction false} RefocusTop(c: Ctx<Node>, t: Tree<Node>)
    requires DistinctIn(c, t)
    ensures DistinctIn(Top, Plug(c, t)) && FieldMap(Top, Plug(c, t)) == FieldMap(c, t)
    ensures Root(Plug(c, t)) == RootIn(c, Root(t))
    decreases c
  {
    if !c.Top? {
      RefocusUp(c, t);
      RefocusTop(c.up, Enclose(c, t));
    }
  }

  lemma {:induction false} HeightenedAt(c: Ctx<Node>, t: Tree<Node>)
    requires DistinctIn(c, t) && t.Branch?
    ensures var m := FieldMap(c, t);
      && Root(t) in m && m[Root(t)].left == Root(t.left) && m[Root(t)].right == Root(t.right)
      && m[Root(t)].height == t.lab.height && m[Root(t)].item == t.lab.entry.item && m[Root(t)].parent == Holder(c)
      && (t.left.Branch? ==> Root(t.left) in m && m[Root(t.left)].height == Height(t.left))
      && (t.right.Branch? ==> Root(t.right) in m && m[Root(t.right)].height == Height(t.right))
      && DistinctIn(c, UpdateHeight(t))
      && FieldMap(c, UpdateHeight(t)) == Heightened(m, Root(t))
  {
    LinksHere(t, Holder(c));
    var m, u := FieldMap(c, t), UpdateHeight(t);
    assert Cells(u) == Cells(t) && Distinct(u);
    forall n | n in m ensures FieldMap(c, u)[n] == Heightened(m, Root(t))[n] {
      if n in Cells(t) {
        LinksGrand(t, Holder(c), n);
        LinksGrand(u, Holder(c), n);
      }
    }
  }

  // ---------------------------------------------------------------- order

  ghost predicate Ordered(c: Ctx<Node>, t: Tree<Node>) {
    Sorted(Before(c, Flat(t, After(c))))
  }

  ghost predicate TreeAbove(t: Tree<Node>, key: nat) {
    t.Leaf? || (key < Key(t) && TreeAbove(t.left, key) && TreeAbove(t.right, key))
  }

  lemma AboveFlat(t: Tree<Node>, l: List<Entry<Node>>, key: nat)
    requires AllAbove(Flat(t, l), key)
    ensures TreeAbove(t, key) && AllAbove(l, key)
  {
    if t.Branch? {
      AboveFlat(t.left, Cons(t.lab.entry, Flat(t.right, l)), key);
      AboveFlat(t.right, l, key);
    }
  }

  // A subtree hangs on the side of its parent that its keys say.
  lemma {:induction false} SideOrdered(c: Ctx<Node>, t: Tree<Node>)
    requires !c.Top? && Ordered(c, t)
    ensures c.InLeft? ==> AllBelow(t, c.lab.entry.item.key)
    ensures c.InRight? ==> TreeAbove(t, c.lab.entry.item.key)
  {
    var l := Flat(t, After(c));
    SortedBefore(c, l);
    if c.InLeft? {
      SortedFlat(t, After(c));
    } else {
      SortedBefore(c.up, Flat(c.left, Cons(c.lab.entry, l)));
      SortedFlat(c.left, Cons(c.lab.entry, l));
      AboveFlat(t, After(c), c.lab.entry.item.key);
    }
  }

  // The same for the subtrees that rotations lift.
  lemma {:induction false} LeftSides(c: Ctx<Node>, t: Tree<Node>)
    requires Ordered(c, t) && t.Branch? && t.left.Branch?
    ensures SideByKey(c, Key(t.left))
    ensures t.left.right.Branch? ==>
      SideByKey(c, Key(t.left.right)) && SideByKey(InLeft(t.lab, t.right, c), Key(t.left.right))
  {
    SideOrdered(InLeft(t.lab, t.right, c), t.left);
    if !c.Top? {
      SideOrdered(c, t);
      var k := c.lab.entry.item.key;
      assert c.InLeft? ==> AllBelow(t.left, k) && AllBelow(t.left.right, k);
      assert c.InRight? ==> TreeAbove(t.left, k) && TreeAbove(t.left.right, k);
    }
  }

  lemma {:induction false} RightSides(c: Ctx<Node>, t: Tree<Node>)
    requires Ordered(c, t) && t.Branch? && t.right.Branch?
    ensures SideByKey(c, Key(t.right))
    ensures t.right.left.Branch? ==>
      SideByKey(c, Key(t.right.left)) && SideByKey(InRight(t.lab, t.left, c), Key(t.right.left))
  {
    SideOrdered(InRight(t.lab, t.left, c), t.right);
    if !c.Top? {
      SideOrdered(c, t);
      var k := c.lab.entry.item.key;
      assert c.InLeft? ==> AllBelow(t.right, k) && AllBelow(t.right.left, k);
      assert c.InRight? ==> TreeAbove(t.right, k) && TreeAbove(t.right.left, k);
    }
  }

  // ---------------------------------------------------------------- insertion and removal on fields

  // A new leaf hung into an empty hole.
  lemma {:induction false} AttachAt(d: Ctx<Node>, node: Node, item: Item)
    requires !d.Top? && DistinctIn(d, Leaf) && node !in CtxCells(d)
    ensures var (s, m, p) := (Branch(Label(Entry(node, item), 1), Leaf, Leaf), FieldMap(d, Leaf), Holder(d));
      && DistinctIn(d, s) && p in m
      && FieldMap(d, s) ==
           m[p := if d.InLeft? then m[p].(left := node) else m[p].(right := node)]
            [node := Links(p, null, null, 1, item)]
      && RootIn(d, node) == RootIn(d, null)
  {
    var s := Branch(Label(Entry(node, item), 1), Leaf, Leaf);
    assert Cells(s) == {node};
    forall n | n in CtxCells(d) ensures LinksAt(d, s, n) == LinksAround(d, node, n) {}
    LinksRehung(d, null, node, Holder(d));
    forall n | n in CtxCells(d) && n != Holder(d) ensures LinksAround(d, node, n) == LinksAround(d, null, n) {
      LinksRehung(d, null, node, n);
    }
  }

  // A node with at most one child, its parent and its child are there and are different ones.
  ghost predicate Loose(m: map<Node, Links>, n: Node) {
    && n in m && (m[n].left == null || m[n].right == null)
    && (var (p, o) := (m[n].parent, Child(m[n]));
        && (p == null || (p in m && p != n && p != o)) && (o == null || (o in m && o != n)))
  }

  ghost function Child(k: Links): Node? {
    if k.left == null then k.right else k.left
  }

  // The fields of all objects after such a node was taken out, its child
  // moving up to the side of its parent that `key` says.
  ghost function Unlinked(m: map<Node, Links>, n: Node, key: nat): map<Node, Links>
    requires Loose(m, n)
  {
    var (p, o) := (m[n].parent, Child(m[n]));
    map k: Node | k in m && k != n ::
      if k == o then m[k].(parent := p)
      else if k == p then (if m[k].item.key < key then m[k].(right := o) else m[k].(left := o))
      else m[k]
  }

  // The key by which removeFromTree tells the side.
  ghost function SideKey(m: map<Node, Links>, n: Node): nat
    requires Loose(m, n)
  {
    if m[n].left == null then m[n].item.key else m[m[n].left].item.key
  }

  // Taking the object out is taking the node out of the tree.
  lemma {:induction false} DetachAt(c: Ctx<Node>, t: Tree<Node>)
    requires DistinctIn(c, t) && t.Branch? && (t.left.Leaf? || t.right.Leaf?)
    requires SideByKey(c, Key(t)) && (t.left.Branch? ==> SideByKey(c, Key(t.left)))
    ensures var (o, m) := (OnlyChild(t), FieldMap(c, t));
      && Loose(m, Root(t)) && m[Root(t)].parent == Holder(c) && Child(m[Root(t)]) == Root(o)
      && DistinctIn(c, o) && FieldMap(c, o) == Unlinked(m, Root(t), SideKey(m, Root(t)))
  {
    var (o, p, m) := (OnlyChild(t), Holder(c), FieldMap(c, t));
    LinksHere(t, p);
    HolderOutside(c, t);
    assert Cells(o) == Cells(t) - {Root(t)};
    assert Loose(m, Root(t)) && SideByKey(c, SideKey(m, Root(t))) by {
      if t.left.Branch? {
        LinksHere(t.left, Root(t));
      }
    }
    forall n | n in Cells(o) + CtxCells(c)
      ensures LinksAt(c, o, n) == Unlinked(m, Root(t), SideKey(m, Root(t)))[n]
    {
      if n in Cells(o) {
        LinksGrand(t, p, n);
        LinksReparented(o, Root(t), p, n);
      } else {
        LinksRehung(c, Root(t), Root(o), n);
      }
    }
  }

  // Another item stored in one object.
  lemma SetItemLinks(t: Tree<Node>, p: Node?, cell: Node, item: Item, n: Node)
    requires n in Cells(t)
    ensures n in Cells(SetItem(t, cell, item))
    ensures LinksIn(SetItem(t, cell, item), p, n) ==
      if n == cell then LinksIn(t, p, n).(item := item) else LinksIn(t, p, n)
  {
    SetItemCells(t, cell, item);
    SetItemCells(t.left, cell, item);
    SetItemCells(t.right, cell, item);
  }

  lemma {:induction false} SetItemMap(t: Tree<Node>, cell: Node, item: Item)
    requires Distinct(t) && cell in Cells(t)
    ensures var (r, m) := (SetItem(t, cell, item), FieldMap(Top, t));
      DistinctIn(Top, r) && cell in m && Root(r) == Root(t) && FieldMap(Top, r) == m[cell := m[cell].(item := item)]
  {
    SetItemCells(t, cell, item);
    forall n | n in Cells(t)
      ensures LinksIn(SetItem(t, cell, item), null, n) ==
        if n == cell then LinksIn(t, null, n).(item := item) else LinksIn(t, null, n)
    {
      SetItemLinks(t, null, cell, item, n);
    }
  }

  // The place of an object in the tree.
  ghost function Locate(c: Ctx<Node>, t: Tree<Node>, n: Node): (Ctx<Node>, Tree<Node>)
    requires n in Cells(t)
    decreases t
  {
    if n == Root(t) then (c, t)
    else if n in Cells(t.left) then Locate(InLeft(t.lab, t.right, c), t.left, n)
    else Locate(InRight(t.lab, t.left, c), t.right, n)
  }

  lemma {:induction false} LocateSpec(c: Ctx<Node>, t: Tree<Node>, n: Node)
    requires n in Cells(t) && DistinctIn(c, t) && Avl(t) && AvlCtx(c, Height(t))
    ensures var (d, s) := Locate(c, t, n);
      && s.Branch? && Root(s) == n && DistinctIn(d, s) && Avl(s) && AvlCtx(d, Height(s))
      && FieldMap(d, s) == FieldMap(c, t) && RootIn(d, Root(s)) == RootIn(c, Root(t))
      && Before(d, Flat(s, After(d))) == Before(c, Flat(t, After(c)))
      && Cells(s) + CtxCells(d) == Cells(t) + CtxCells(c)
    decreases t
  {
    if n == Root(t) {
    } else if n in Cells(t.left) {
      RefocusDown(c, t, InLeft(t.lab, t.right, c), t.left);
      LocateSpec(InLeft(t.lab, t.right, c), t.left, n);
    } else {
      RefocusDown(c, t, InRight(t.lab, t.left, c), t.right);
      LocateSpec(InRight(t.lab, t.left, c), t.right, n);
    }
  }

  // What insertion does to the number and the objects of the entries.
  lemma InsertedSorted(l: List<Entry<Node>>, e: Entry<Node>)
    ensures Length(InsertSorted(l, e)) == Length(l) + 1
    ensures CellsOf(InsertSorted(l, e)) == CellsOf(l) + {e.cell}
  {}

  // A key that is present is removed once.
  lemma RemovedKey(l: List<Entry<Node>>, key: nat)
    ensures Length(Items(l)) == Length(l)
    ensures Length(RemoveKey(Items(l), key)) == if Has(l, key) then Length(l) - 1 else Length(l)
  {}

  lemma HasInside(c: Ctx<Node>, l: List<Entry<Node>>, key: nat)
    requires Has(l, key)
    ensures Has(Before(c, l), key)
    decreases c
  {
    if c.InLeft? {
      HasInside(c.up, l, key);
    } else if c.InRight? {
      HasFlat(c.left, Cons(c.lab.entry, l), key);
      HasInside(c.up, Flat(c.left, Cons(c.lab.entry, l)), key);
    }
  }

  lemma HasFlat(t: Tree<Node>, l: List<Entry<Node>>, key: nat)
    ensures Has(l, key) || (t.Branch? && Key(t) == key) ==> Has(Flat(t, l), key)
  {
    if t.Branch? {
      HasFlat(t.right, l, key);
      HasFlat(t.left, Cons(t.lab.entry, Flat(t.right, l)), key);
    }
  }

  lemma {:induction false} SingleTree(node: Node, item: Item)
    ensures var t := Branch(Label(Entry(node, item), 1), Leaf, Leaf);
      && Distinct(t) && FieldMap(Top, t) == map[node := Links(null, null, null, 1, item)]
      && Avl(t) && Flat(t, Nil) == Cons(Entry(node, item), Nil)
  {
    var t := Branch(Label(Entry(node, item), 1), Leaf, Leaf);
    assert Cells(t.left) == {} && Cells(t.right) == {};
  }

  // Removing an object's entry from a whole tree.
  lemma {:induction false} RemovedTree(t: Tree<Node>, node: Node)
    returns (d: Ctx<Node>, s: Tree<Node>, r: Tree<Node>, gone: Node)
    requires Avl(t) && Sorted(Flat(t, Nil)) && Distinct(t) && node in Cells(t)
    ensures s.Branch? && Root(s) == node && DistinctIn(d, s) && Avl(s) && AvlCtx(d, Height(s)) && Ordered(d, s)
    ensures FieldMap(d, s) == FieldMap(Top, t) && RootIn(d, Root(s)) == Root(t)
    ensures node in FieldMap(Top, t) && FieldMap(Top, t)[node].item.key == Key(s)
    ensures Remove(d, s) == (r, gone) && FieldMap(Top, r).Keys == FieldMap(Top, t).Keys - {gone}
    ensures Avl(r) && Sorted(Flat(r, Nil)) && gone in FieldMap(Top, t)
    ensures Items(Flat(r, Nil)) == RemoveKey(Items(Flat(t, Nil)), Key(s))
    ensures Length(Flat(r, Nil)) == Length(Flat(t, Nil)) - 1
  {
    LocateSpec(Top, t, node);
    var at := Locate(Top, t, node);
    d, s := at.0, at.1;
    RemoveSpec(d, s);
    r, gone := Remove(d, s).0, Remove(d, s).1;
    HeightenedAt(d, s);
    RemovedSorted(Flat(t, Nil), Flat(r, Nil), Key(s)) by {
      HasFlat(s, After(d), Key(s));
      HasInside(d, Flat(s, After(d)), Key(s));
    }
  }

  lemma {:induction false} RemovedSorted(l: List<Entry<Node>>, r: List<Entry<Node>>, key: nat)
    requires Sorted(l) && Has(l, key) && Items(r) == RemoveKey(Items(l), key)
    ensures Sorted(r) && Length(r) == Length(l) - 1
  {
    RemovedKey(l, key);
    RemovedKey(r, key);
    SortedByItems(l);
    SortedRemove(Items(l), key);
    SortedByItems(r);
  }

  class IntervalTree {
    var root: Node?
    var size: nat
    ghost var tree: Tree<Node>
    ghost var nodes: set<Node>

    ghost predicate Valid()
      reads this, nodes
    {
      && Focus(Top, tree)
      && Avl(tree) && Sorted(Flat(tree, Nil))
      && size == Length(Flat(tree, Nil))
    }

    // Every object has the fields `m` says.
    ghost predicate Stores(m: map<Node, Links>)
      reads this, nodes
    {
      nodes == m.Keys && forall n :: n in nodes ==> n.Fields() == m[n]
    }

    // The objects represent `t` hanging in `c`.
    ghost predicate Focus(c: Ctx<Node>, t: Tree<Node>)
      reads this, nodes
    {
      DistinctIn(c, t) && root == RootIn(c, Root(t)) && Stores(FieldMap(c, t))
    }

    // ---------------------------------------------------------------- pointers

    method UpdateChildPointer(node: Node?, child: Node?, direction: ChildDirection)
      requires direction == Unknown && node != null ==> child != null
      modifies Only(node)`left, Only(node)`right
      ensures node != null ==>
        var toRight := direction == Right || (direction == Unknown && node.key < child.key);
        && node.right == (if toRight then child else old(node.right))
        && node.left == (if toRight then old(node.left) else child)
    {
      if node != null {
        match direction
        case Unknown =>
          if node.key < child.key {
            node.right := child;
          } else {
            node.left := child;
          }
        case Left => node.left := child;
        case Right => node.right := child;
      }
    }

    method UpdateParentPointer(node: Node?, parentNode: Node?)
      modifies `root, Only(node)`parent
      ensures node != null ==> node.parent == parentNode
      ensures root == if parentNode == null then node else old(root)
    {
      if node != null {
        node.parent := parentNode;
      }
      if parentNode == null {
        root := node;
      }
    }

    static function GetHeight(node: Node?): int
      reads node
    {
      if node == null then 0 else node.height
    }

    method UpdateHeight(node: Node, ghost m: map<Node, Links>)
      requires Stores(m) && node in m
      requires (node.left == null || node.left in m) && (node.right == null || node.right in m)
      modifies node`height
      ensures Stores(Heightened(m, node))
    {
      node.height := Max(GetHeight(node.left), GetHeight(node.right)) + 1;
    }

    // ---------------------------------------------------------------- rotations

    method PerformRotation(y: Node, direction: RotationDirection, ghost m: map<Node, Links>)
      requires Stores(m) && Rotor(direction, m, y)
      modifies `root, nodes`parent, nodes`left, nodes`right, nodes`height
      ensures Stores(Rotated(direction, m, y))
      ensures root == if m[y].parent == null then Lifted(direction, m[y]) else old(root)
    {
      RotatedSteps(direction, m, y);
      var x := Relink(y, direction, m);
      UpdateHeights(y, x, RelinkedMap(direction, m, y));
    }

    method UpdateHeights(y: Node, x: Node, ghost k: map<Node, Links>)
      requires Stores(k) && x in k && y in k
      requires (k[y].left == null || k[y].left in k) && (k[y].right == null || k[y].right in k)
      requires (k[x].left == null || k[x].left in k) && (k[x].right == null || k[x].right in k)
      modifies y`height, x`height
      ensures Stores(Heightened(Heightened(k, y), x))
    {
      UpdateHeight(y, k);
      UpdateHeight(x, Heightened(k, y));
    }

    method Relink(y: Node, direction: RotationDirection, ghost m: map<Node, Links>) returns (x: Node)
      requires Stores(m) && Rotor(direction, m, y)
      modifies `root, nodes`parent, nodes`left, nodes`right
      ensures Stores(RelinkedMap(direction, m, y))
      ensures x == Lifted(direction, m[y])
      ensures root == if m[y].parent == null then x else old(root)
    {
      if direction == Clockwise {
        x := RelinkClockwise(y);
      } else {
        x := RelinkAntiClockwise(y);
      }
    }

    // The relinking of performRotation in the CLOCKWISE direction.
    method RelinkClockwise(y: Node) returns (x: Node)
      requires y.left != null && y.left != y && y.parent !in [y, y.left]
      requires y.left.right !in [y, y.left] && (y.parent != null ==> y.left.right != y.parent)
      modifies `root, y`parent, y`left, y.left`parent, y.left`right,
               Only(y.left.right)`parent, Only(y.parent)`left, Only(y.parent)`right
      ensures x == old(y.left)
      ensures root == if old(y.parent) == null then x else old(root)
      ensures forall n :: n in nodes ==>
        n.Fields() == Relinked(Clockwise, old(n.Fields()), n, x, y, old(y.left.right), old(y.parent), x.key)
    {
      x := y.left;
      UpdateParentPointer(x, y.parent);
      UpdateChildPointer(x.parent, x, Unknown);
      y.left := x.right;
      UpdateParentPointer(y.left, y);
      x.right := y;
      UpdateParentPointer(y, x);
    }

    method RelinkAntiClockwise(y: Node) returns (x: Node)
      requires y.right != null && y.right != y && y.parent !in [y, y.right]
      requires y.right.left !in [y, y.right] && (y.parent != null ==> y.right.left != y.parent)
      modifies `root, y`parent, y`right, y.right`parent, y.right`left,
               Only(y.right.left)`parent, Only(y.parent)`left, Only(y.parent)`right
      ensures x == old(y.right)
      ensures root == if old(y.parent) == null then x else old(root)
      ensures forall n :: n in nodes ==>
        n.Fields() == Relinked(AntiClockwise, old(n.Fields()), n, x, y, old(y.right.left), old(y.parent), x.key)
    {
      x := y.right;
      UpdateParentPointer(x, y.parent);
      UpdateChildPointer(x.parent, x, Unknown);
      y.right := x.left;
      UpdateParentPointer(y.right, y);
      x.left := y;
      UpdateParentPointer(y, x);
    }

    // Rotating the subtree `t` hanging in `c`.
    method RotateAt(y: Node, direction: RotationDirection, ghost c: Ctx<Node>, ghost t: Tree<Node>)
      requires Focus(c, t) && t.Branch? && t.lab.entry.cell == y
      requires direction == Clockwise ==> t.left.Branch? && SideByKey(c, Key(t.left))
      requires direction == AntiClockwise ==> t.right.Branch? && SideByKey(c, Key(t.right))
      modifies `root, nodes`parent, nodes`left, nodes`right, nodes`height
      ensures Focus(c, if direction == Clockwise then RotateClockwise(t) else RotateAntiClockwise(t))
    {
      if direction == Clockwise {
        RotorClockwise(c, t);
        RotatedClockwise(c, t);
      } else {
        RotorAntiClockwise(c, t);
        RotatedAntiClockwise(c, t);
      }
      PerformRotation(y, direction, FieldMap(c, t));
    }

    // ---------------------------------------------------------------- rebalancing

    method BalanceHeight(z: Node, ghost c: Ctx<Node>, ghost t: Tree<Node>) returns (r: Node)
      requires Focus(c, t) && Ordered(c, t) && Rotatable(t) && z == Root(t)
      modifies `root, nodes`parent, nodes`left, nodes`right, nodes`height
      ensures Focus(c, AvlTree.BalanceHeight(t)) && r == Root(AvlTree.BalanceHeight(t))
    {
      HeightenedAt(c, t);
      if GetHeight(z.left) > GetHeight(z.right) {
        r := BalanceLeft(z, c, t);
      } else {
        r := BalanceRight(z, c, t);
      }
    }

    // balanceHeight when the left child y is the taller one.
    method BalanceLeft(z: Node, ghost c: Ctx<Node>, ghost t: Tree<Node>) returns (r: Node)
      requires Focus(c, t) && Ordered(c, t) && Rotatable(t) && z == Root(t) && Height(t.left) > Height(t.right)
      modifies `root, nodes`parent, nodes`left, nodes`right, nodes`height
      ensures Focus(c, AvlTree.BalanceHeight(t)) && r == Root(AvlTree.BalanceHeight(t))
    {
      HeightenedAt(c, t);
      RefocusDown(c, t, InLeft(t.lab, t.right, c), t.left);
      HeightenedAt(InLeft(t.lab, t.right, c), t.left);
      LeftSides(c, t);
      var y := z.left;
      if GetHeight(y.left) < GetHeight(y.right) {
        r := y.right;
        DoubleLeft(z, y, c, t);
      } else {
        r := y;
        RotateAt(z, Clockwise, c, t);
      }
    }

    method DoubleLeft(z: Node, y: Node, ghost c: Ctx<Node>, ghost t: Tree<Node>)
      requires Focus(c, t) && t.Branch? && t.left.Branch? && t.left.right.Branch? && z == Root(t) && y == Root(t.left)
      requires SideByKey(c, Key(t.left.right)) && SideByKey(InLeft(t.lab, t.right, c), Key(t.left.right))
      modifies `root, nodes`parent, nodes`left, nodes`right, nodes`height
      ensures Focus(c, RotateClockwise(Branch(t.lab, RotateAntiClockwise(t.left), t.right)))
    {
      ghost var d := InLeft(t.lab, t.right, c);
      RefocusDown(c, t, d, t.left);
      RotateAt(y, AntiClockwise, d, t.left);
      RefocusUp(d, RotateAntiClockwise(t.left));
      RotateAt(z, Clockwise, c, Branch(t.lab, RotateAntiClockwise(t.left), t.right));
    }

    method BalanceRight(z: Node, ghost c: Ctx<Node>, ghost t: Tree<Node>) returns (r: Node)
      requires Focus(c, t) && Ordered(c, t) && Rotatable(t) && z == Root(t) && Height(t.left) < Height(t.right)
      modifies `root, nodes`parent, nodes`left, nodes`right, nodes`height
      ensures Focus(c, AvlTree.BalanceHeight(t)) && r == Root(AvlTree.BalanceHeight(t))
    {
      HeightenedAt(c, t);
      RefocusDown(c, t, InRight(t.lab, t.left, c), t.right);
      HeightenedAt(InRight(t.lab, t.left, c), t.right);
      RightSides(c, t);
      var y := z.right;
      if GetHeight(y.left) > GetHeight(y.right) {
        r := y.left;
        DoubleRight(z, y, c, t);
      } else {
        r := y;
        RotateAt(z, AntiClockwise, c, t);
      }
    }

    method DoubleRight(z: Node, y: Node, ghost c: Ctx<Node>, ghost t: Tree<Node>)
      requires Focus(c, t) && t.Branch? && t.right.Branch? && t.right.left.Branch? && z == Root(t) && y == Root(t.right)
      requires SideByKey(c, Key(t.right.left)) && SideByKey(InRight(t.lab, t.left, c), Key(t.right.left))
      modifies `root, nodes`parent, nodes`left, nodes`right, nodes`height
      ensures Focus(c, RotateAntiClockwise(Branch(t.lab, t.left, RotateClockwise(t.right))))
    {
      ghost var d := InRight(t.lab, t.left, c);
      RefocusDown(c, t, d, t.right);
      RotateAt(y, Clockwise, d, t.right);
      RefocusUp(d, RotateClockwise(t.right));
      RotateAt(z, AntiClockwise, c, Branch(t.lab, t.left, RotateClockwise(t.right)));
    }

    static predicate HeightBalancedAt(node: Node)
      reads node, node.left, node.right
    {
      -1 <= GetHeight(node.left) - GetHeight(node.right) <= 1
    }

    // rebalanceAVLTree from `node`, the parent of the subtree `s` hanging in `c`, upwards.
    method RebalanceAVLTree(node: Node?, ghost c: Ctx<Node>, ghost s: Tree<Node>)
      requires Focus(c, s) && Ordered(c, s) && node == Holder(c)
      requires !c.Top? ==> Climbable(c.up, Enclose(c, s))
      modifies `root, nodes`parent, nodes`left, nodes`right, nodes`height
      ensures Focus(Top, RebalanceAbove(c, s))
      decreases c
    {
      if node == null {
        return;
      }
      ghost var (d, t) := (c.up, Enclose(c, s));
      RefocusUp(c, s);
      HeightenedAt(d, t);
      FixFlat(t, After(d));
      var oldHeight := node.height;
      var newRoot := Repair(node, d, t);
      HeightenedAt(d, Fix(t));
      if newRoot.height != oldHeight {
        RebalanceAVLTree(newRoot.parent, d, Fix(t));
      } else {
        RefocusTop(d, Fix(t));
      }
    }

    // The repair of one node in rebalanceAVLTree.
    method Repair(node: Node, ghost c: Ctx<Node>, ghost t: Tree<Node>) returns (newRoot: Node)
      requires Focus(c, t) && Ordered(c, t) && Fixable(t) && node == Root(t)
      modifies `root, nodes`parent, nodes`left, nodes`right, nodes`height
      ensures Focus(c, Fix(t)) && newRoot == Root(Fix(t))
    {
      HeightenedAt(c, t);
      newRoot := node;
      if !HeightBalancedAt(node) {
        newRoot := BalanceHeight(node, c, t);
      } else {
        UpdateHeight(node, FieldMap(c, t));
      }
    }

    // ---------------------------------------------------------------- insertion

    // A new node hung in the empty hole of `d`, and the tree rebalanced from its parent.
    method Attach(node: Node, sub: Node, toLeft: bool, ghost d: Ctx<Node>, ghost item: Item)
      requires Focus(d, Leaf) && !d.Top? && sub == Holder(d) && toLeft == d.InLeft?
      requires node !in nodes && node.Fields() == Links(null, null, null, 1, item)
      requires var s := Branch(Label(Entry(node, item), 1), Leaf, Leaf);
        Climbable(d.up, Enclose(d, s)) && Ordered(d, s)
      modifies `root, `nodes, nodes`parent, nodes`left, nodes`right, nodes`height,
               node`parent, node`left, node`right, node`height
      ensures Focus(Top, RebalanceAbove(d, Branch(Label(Entry(node, item), 1), Leaf, Leaf)))
    {
      AttachAt(d, node, item);
      Hang(node, sub, toLeft, FieldMap(d, Leaf), item);
      RebalanceAVLTree(sub, d, Branch(Label(Entry(node, item), 1), Leaf, Leaf));
    }

    method Hang(node: Node, sub: Node, toLeft: bool, ghost m: map<Node, Links>, ghost item: Item)
      requires Stores(m) && sub in m && node !in m && node.Fields() == Links(null, null, null, 1, item)
      modifies `nodes, sub`left, sub`right, node`parent
      ensures Stores(m[sub := if toLeft then m[sub].(left := node) else m[sub].(right := node)]
                      [node := Links(sub, null, null, 1, item)])
    {
      if toLeft {
        sub.left := node;
      } else {
        sub.right := node;
      }
      node.parent := sub;
      nodes := nodes + {node};
    }

    // insertInTree below `sub`, the root of `t` in `c`; false on a duplicate key.
    method InsertInTree(node: Node, sub: Node, ghost c: Ctx<Node>, ghost t: Tree<Node>, ghost item: Item)
      returns (ok: bool)
      requires Focus(c, t) && t.Branch? && sub == Root(t)
      requires Insertable(c, t, item.key)
      requires node !in nodes && node.Fields() == Links(null, null, null, 1, item)
      modifies `root, `nodes, nodes`parent, nodes`left, nodes`right, nodes`height,
               node`parent, node`left, node`right, node`height
      ensures ok == AvlTree.Insert(c, t, Label(Entry(node, item), 1)).Some?
      ensures ok ==> Focus(Top, AvlTree.Insert(c, t, Label(Entry(node, item), 1)).value)
      ensures !ok ==> Focus(c, t)
      decreases t
    {
      ghost var lab := Label(Entry(node, item), 1);
      HeightenedAt(c, t);
      if node.key < sub.key {
        ok := InsertLeft(node, sub, c, t, item);
      } else if node.key > sub.key {
        ok := InsertRight(node, sub, c, t, item);
      } else {
        ok := false;
      }
    }

    method InsertLeft(node: Node, sub: Node, ghost c: Ctx<Node>, ghost t: Tree<Node>, ghost item: Item)
      returns (ok: bool)
      requires Focus(c, t) && t.Branch? && sub == Root(t) && item.key < Key(t)
      requires Insertable(c, t, item.key)
      requires node !in nodes && node.Fields() == Links(null, null, null, 1, item)
      modifies `root, `nodes, nodes`parent, nodes`left, nodes`right, nodes`height,
               node`parent, node`left, node`right, node`height
      ensures ok == AvlTree.Insert(c, t, Label(Entry(node, item), 1)).Some?
      ensures ok ==> Focus(Top, AvlTree.Insert(c, t, Label(Entry(node, item), 1)).value)
      ensures !ok ==> Focus(c, t)
      decreases t, 0
    {
      ghost var d := InLeft(t.lab, t.right, c);
      HeightenedAt(c, t);
      RefocusDown(c, t, d, t.left);
      PathLeft(c, t, Label(Entry(node, item), 1));
      if sub.left != null {
        ok := InsertInTree(node, sub.left, d, t.left, item);
      } else {
        Attach(node, sub, true, d, item);
        ok := true;
      }
    }

    method InsertRight(node: Node, sub: Node, ghost c: Ctx<Node>, ghost t: Tree<Node>, ghost item: Item)
      returns (ok: bool)
      requires Focus(c, t) && t.Branch? && sub == Root(t) && item.key > Key(t)
      requires Insertable(c, t, item.key)
      requires node !in nodes && node.Fields() == Links(null, null, null, 1, item)
      modifies `root, `nodes, nodes`parent, nodes`left, nodes`right, nodes`height,
               node`parent, node`left, node`right, node`height
      ensures ok == AvlTree.Insert(c, t, Label(Entry(node, item), 1)).Some?
      ensures ok ==> Focus(Top, AvlTree.Insert(c, t, Label(Entry(node, item), 1)).value)
      ensures !ok ==> Focus(c, t)
      decreases t, 0
    {
      ghost var d := InRight(t.lab, t.left, c);
      HeightenedAt(c, t);
      RefocusDown(c, t, d, t.right);
      PathRight(c, t, Label(Entry(node, item), 1));
      if sub.right != null {
        ok := InsertInTree(node, sub.right, d, t.right, item);
      } else {
        Attach(node, sub, false, d, item);
        ok := true;
      }
    }

    // ---------------------------------------------------------------- removal

    // The relinking of removeFromTree for a node with at most one child.
    method Unlink(node: Node, ghost m: map<Node, Links>)
      requires Stores(m) && Loose(m, node)
      modifies `root, `nodes, nodes`parent, nodes`left, nodes`right
      ensures Stores(Unlinked(m, node, SideKey(m, node)))
      ensures root == if m[node].parent == null then Child(m[node]) else old(root)
      ensures node.parent == m[node].parent
    {
      if node.left == null {
        if node.parent != null {
          UpdateChildPointer(node.parent, node.right, if node.parent.key < node.key then Right else Left);
        }
        UpdateParentPointer(node.right, node.parent);
      } else {
        UpdateChildPointer(node.parent, node.left, Unknown);
        UpdateParentPointer(node.left, node.parent);
      }
      nodes := nodes - {node};
    }

    method Splice(node: Node, ghost c: Ctx<Node>, ghost t: Tree<Node>)
      requires Focus(c, t) && Ordered(c, t) && t.Branch? && (t.left.Leaf? || t.right.Leaf?) && node == Root(t)
      requires Avl(t) && AvlCtx(c, Height(t))
      modifies `root, `nodes, nodes`parent, nodes`left, nodes`right, nodes`height
      ensures Focus(Top, Detach(c, t))
    {
      DetachReady(c, t);
      SpliceOrdered(c, t);
      DetachAt(c, t);
      Unlink(node, FieldMap(c, t));
      RebalanceAVLTree(node.parent, c, OnlyChild(t));
    }

    method FindMinKeyNode(sub: Node, ghost c: Ctx<Node>, ghost t: Tree<Node>) returns (r: Node)
      requires Focus(c, t) && t.Branch? && sub == Root(t)
      ensures r == Root(MinHole(c, t).1)
      decreases t
    {
      HeightenedAt(c, t);
      if sub.left != null {
        RefocusDown(c, t, InLeft(t.lab, t.right, c), t.left);
        r := FindMinKeyNode(sub.left, InLeft(t.lab, t.right, c), t.left);
      } else {
        r := sub;
      }
    }

    // swap: node1 is in the tree `r`, node2 has left it.
    method Swap(node1: Node, node2: Node, ghost r: Tree<Node>)
      requires Focus(Top, r) && node1 in nodes && node2 !in nodes
      modifies node1`key, node1`interval, node2`key, node2`interval
      ensures Focus(Top, SetItem(r, node1, old(Item(node2.key, node2.interval))))
      ensures node2.key == old(node1.key) && node2.interval == old(node1.interval)
    {
      SetItemMap(r, node1, Item(node2.key, node2.interval));
      var key, interval := node1.key, node1.interval;
      node1.key, node1.interval := node2.key, node2.interval;
      node2.key, node2.interval := key, interval;
    }

    // removeFromTree for `node`, the root of `t` in `c`: the object taken out
    // carries the removed key and interval.
    method RemoveFromTree(node: Node, ghost c: Ctx<Node>, ghost t: Tree<Node>) returns (gone: Node)
      requires Focus(c, t) && Ordered(c, t) && t.Branch? && node == Root(t) && Avl(t) && AvlCtx(c, Height(t))
      modifies `root, `nodes, nodes
      ensures Focus(Top, AvlTree.Remove(c, t).0) && gone == AvlTree.Remove(c, t).1
      ensures gone.key == old(node.key) && gone.interval == old(node.interval)
    {
      HeightenedAt(c, t);
      if node.left == null || node.right == null {
        Splice(node, c, t);
        gone := node;
      } else {
        gone := RemoveSuccessor(node, c, t);
      }
    }

    // removeFromTree for a node with two children.
    method RemoveSuccessor(node: Node, ghost c: Ctx<Node>, ghost t: Tree<Node>) returns (gone: Node)
      requires Focus(c, t) && Ordered(c, t) && t.Branch? && node == Root(t) && Avl(t) && AvlCtx(c, Height(t))
      requires t.left.Branch? && t.right.Branch? && node.right == Root(t.right)
      modifies `root, `nodes, nodes
      ensures Focus(Top, AvlTree.Remove(c, t).0) && gone == AvlTree.Remove(c, t).1
      ensures gone.key == old(node.key) && gone.interval == old(node.interval)
    {
      ghost var c0 := InRight(t.lab, t.left, c);
      ghost var (d, s) := MinHole(c0, t.right);
      RefocusDown(c, t, c0, t.right);
      gone := FindMinKeyNode(node.right, c0, t.right);
      SuccessorFields(c, t);
      Splice(gone, d, s);
      Swap(node, gone, Detach(d, s));
    }

    // ---------------------------------------------------------------- the public operations

    constructor (rootTree: Node)
      requires rootTree.Fields() == Links(null, null, null, 1, Item(rootTree.key, rootTree.interval))
      ensures Valid() && nodes == {rootTree}
      ensures Flat(tree, Nil) == Cons(Entry(rootTree, Item(rootTree.key, rootTree.interval)), Nil)
    {
      root, size := rootTree, 1;
      tree := Branch(Label(Entry(rootTree, Item(rootTree.key, rootTree.interval)), 1), Leaf, Leaf);
      nodes := {rootTree};
      SingleTree(rootTree, Item(rootTree.key, rootTree.interval));
    }

    // insert: the new entry takes its place among the sorted ones.  A key that is
    // present already makes the program stop, with the size counted up before.
    method Insert(node: Node) returns (ok: bool)
      requires Valid() && root != null && node !in nodes
      requires node.Fields() == Links(null, null, null, 1, Item(node.key, node.interval))
      modifies this, nodes`parent, nodes`left, nodes`right, nodes`height,
               node`parent, node`left, node`right, node`height
      ensures ok <==> !Has(old(Flat(tree, Nil)), node.key)
      ensures ok ==> Valid() && nodes == old(nodes) + {node}
      ensures ok ==> Flat(tree, Nil) == InsertSorted(old(Flat(tree, Nil)), Entry(node, Item(node.key, node.interval)))
      ensures !ok ==> Focus(Top, tree) && tree == old(tree) && size == old(size) + 1
    {
      ghost var item := Item(node.key, node.interval);
      ghost var lab := Label(Entry(node, item), 1);
      ghost var before := Flat(tree, Nil);
      InsertSpec(Top, tree, lab);
      size := size + 1;
      ok := InsertInTree(node, root, Top, tree, item);
      if ok {
        tree := AvlTree.Insert(Top, tree, lab).value;
        InsertedSorted(before, lab.entry);
        CellsFlat(old(tree), Nil);
        CellsFlat(tree, Nil);
      }
    }

    // remove: the entry with the node's key goes.  The object that leaves the
    // tree may be another one than `node`; it carries the removed key and interval.
    method Remove(node: Node) returns (gone: Node)
      requires Valid() && node in nodes
      modifies this, nodes
      ensures Valid() && gone in old(nodes) && nodes == old(nodes) - {gone}
      ensures gone.key == old(node.key) && gone.interval == old(node.interval)
      ensures Items(Flat(tree, Nil)) == RemoveKey(Items(old(Flat(tree, Nil))), old(node.key))
      ensures size == old(size) - 1
    {
      ghost var c, t, r, out := RemovedTree(tree, node);
      size := size - 1;
      gone := RemoveFromTree(node, c, t);
      tree := r;
    }

    // search: see IntervalSearch.SearchIsFirstFit and IntervalSearch.SearchTouching.
    method Search(interval: Interval) returns (r: Node?)
      requires Valid()
      ensures r == Root(IntervalSearch.SearchTree(tree, interval))
      ensures IntervalSearch.Spread(Flat(tree, Nil), 1) && interval.first <= interval.second ==>
                match IntervalSearch.FirstFit(Flat(tree, Nil), interval)
                case None => r == null
                case Some(e) => r == e.cell
    {
      r := SearchTree(interval, root, Top, tree);
      if IntervalSearch.Spread(Flat(tree, Nil), 1) && interval.first <= interval.second {
        IntervalSearch.SearchIsFirstFit(tree, interval);
      }
    }

    method SearchTree(interval: Interval, sub: Node?, ghost c: Ctx<Node>, ghost t: Tree<Node>) returns (r: Node?)
      requires Focus(c, t) && sub == Root(t)
      ensures r == Root(IntervalSearch.SearchTree(t, interval))
      decreases t
    {
      if sub == null {
        return null;
      }
      HeightenedAt(c, t);
      if interval.first >= sub.interval.first && interval.second <= sub.interval.second {
        return sub;
      }
      if interval.second < sub.interval.first {
        RefocusDown(c, t, InLeft(t.lab, t.right, c), t.left);
        var found := SearchTree(interval, sub.left, InLeft(t.lab, t.right, c), t.left);
        if found != null {
          return found;
        }
      }
      if interval.first < sub.interval.first
         && IntervalSearch.Width(sub.interval) >= IntervalSearch.Width(interval) {
        return sub;
      }
      RefocusDown(c, t, InRight(t.lab, t.left, c), t.right);
      r := SearchTree(interval, sub.right, InRight(t.lab, t.left, c), t.right);
    }
  }

  // The key may be looked for, and inserted, below `t`.
  ghost predicate Insertable(c: Ctx<Node>, t: Tree<Node>, key: nat) {
    Avl(t) && AvlCtx(c, Height(t)) && Ordered(c, t) && BelowHole(c, key) && AllAbove(After(c), key)
  }

  // Going left below `t`: either on into the child, or into the empty hole.
  lemma {:induction false} PathLeft(c: Ctx<Node>, t: Tree<Node>, lab: Label<Node>)
    requires t.Branch? && lab.height == 1 && lab.entry.item.key < Key(t) && Insertable(c, t, lab.entry.item.key)
    ensures var (d, s) := (InLeft(t.lab, t.right, c), Branch(lab, Leaf, Leaf));
      && Insertable(d, t.left, lab.entry.item.key)
      && (t.left.Branch? ==> Insert(c, t, lab) == Insert(d, t.left, lab))
      && (t.left.Leaf? ==>
            Climbable(c, Enclose(d, s)) && Ordered(d, s) && Insert(c, t, lab) == Some(RebalanceAbove(d, s)))
  {
    var key := lab.entry.item.key;
    var l := Cons(t.lab.entry, Flat(t.right, After(c)));
    SortedBefore(c, Flat(t, After(c)));
    SortedFlat(t.left, l);
    AboveTransitive(l.tail, key, Key(t));
    if t.left.Leaf? {
      InsertSpec(c, t, lab);
      var u := Branch(t.lab, Branch(lab, Leaf, Leaf), t.right);
      RebalanceRestores(c, u);
      RebalanceFlat(c, u);
    }
  }

  lemma {:induction false} PathRight(c: Ctx<Node>, t: Tree<Node>, lab: Label<Node>)
    requires t.Branch? && lab.height == 1 && lab.entry.item.key > Key(t) && Insertable(c, t, lab.entry.item.key)
    ensures var (d, s) := (InRight(t.lab, t.left, c), Branch(lab, Leaf, Leaf));
      && Insertable(d, t.right, lab.entry.item.key)
      && (t.right.Branch? ==> Insert(c, t, lab) == Insert(d, t.right, lab))
      && (t.right.Leaf? ==>
            Climbable(c, Enclose(d, s)) && Ordered(d, s) && Insert(c, t, lab) == Some(RebalanceAbove(d, s)))
  {
    var key := lab.entry.item.key;
    SortedBefore(c, Flat(t, After(c)));
    SortedFlat(t.left, Cons(t.lab.entry, Flat(t.right, After(c))));
    BelowTransitive(t.left, Key(t), key);
    if t.right.Leaf? {
      InsertSpec(c, t, lab);
      var u := Branch(t.lab, t.left, Branch(lab, Leaf, Leaf));
      RebalanceRestores(c, u);
      RebalanceFlat(c, u);
    }
  }

  // Taking a node out keeps the order, and it hangs on the side its key says.
  lemma {:induction false} SpliceOrdered(c: Ctx<Node>, t: Tree<Node>)
    requires Ordered(c, t) && t.Branch? && (t.left.Leaf? || t.right.Leaf?)
    requires Avl(t) && AvlCtx(c, Height(t)) && DistinctIn(c, t)
    ensures Ordered(c, OnlyChild(t))
    ensures SideByKey(c, Key(t)) && (t.left.Branch? ==> SideByKey(c, Key(t.left)))
  {
    RemoveSpec(c, t);
    DetachSpec(c, t);
    SortedByItems(Before(c, Flat(t, After(c))));
    SortedByItems(Before(c, Flat(OnlyChild(t), After(c))));
    SortedRemove(Items(Before(c, Flat(t, After(c)))), Key(t));
    if !c.Top? {
      SideOrdered(c, t);
    }
  }

  // The successor of the root of `t`, seen in the same objects.
  lemma {:induction false} MinHoleFields(c: Ctx<Node>, t: Tree<Node>)
    requires t.Branch? && t.right.Branch? && Avl(t) && AvlCtx(c, Height(t)) && DistinctIn(c, t) && Ordered(c, t)
    ensures var (d, s) := MinHole(InRight(t.lab, t.left, c), t.right);
      && Avl(s) && AvlCtx(d, Height(s)) && DistinctIn(d, s) && Ordered(d, s)
      && FieldMap(d, s) == FieldMap(c, t) && RootIn(d, Root(s)) == RootIn(c, Root(t))
      && Root(s) in Cells(t.right) && Cells(s) + CtxCells(d) == Cells(t) + CtxCells(c)
  {
    var c0 := InRight(t.lab, t.left, c);
    RefocusDown(c, t, c0, t.right);
    MinHoleSpec(c0, t.right);
    MinHoleMap(c0, t.right);
  }

  // The successor is another object of the tree, and stays out of it when spliced out.
  lemma {:induction false} SuccessorFields(c: Ctx<Node>, t: Tree<Node>)
    requires t.Branch? && t.left.Branch? && t.right.Branch?
    requires Avl(t) && AvlCtx(c, Height(t)) && DistinctIn(c, t) && Ordered(c, t)
    ensures var (d, s) := MinHole(InRight(t.lab, t.left, c), t.right);
      && Avl(s) && AvlCtx(d, Height(s)) && DistinctIn(d, s) && Ordered(d, s)
      && FieldMap(d, s) == FieldMap(c, t) && RootIn(d, Root(s)) == RootIn(c, Root(t))
      && Root(t) in FieldMap(c, t) && FieldMap(c, t)[Root(t)].item == t.lab.entry.item
      && Root(s) in FieldMap(c, t) && FieldMap(c, t)[Root(s)].item == s.lab.entry.item
      && Root(t) in Cells(Detach(d, s)) && Root(s) !in Cells(Detach(d, s))
      && Distinct(Detach(d, s))
      && Remove(c, t) == (SetItem(Detach(d, s), Root(t), s.lab.entry.item), Root(s))
  {
    MinHoleFields(c, t);
    var (d, s) := MinHole(InRight(t.lab, t.left, c), t.right);
    MinHoleSpec(InRight(t.lab, t.left, c), t.right);
    DetachSpec(d, s);
    HeightenedAt(c, t);
    HeightenedAt(d, s);
  }

  lemma {:induction false} MinHoleMap(c: Ctx<Node>, t: Tree<Node>)
    requires t.Branch? && DistinctIn(c, t)
    ensures var (d, s) := MinHole(c, t);
      FieldMap(d, s) == FieldMap(c, t) && RootIn(d, Root(s)) == RootIn(c, Root(t))
    decreases t
  {
    if t.left.Branch? {
      RefocusDown(c, t, InLeft(t.lab, t.right, c), t.left);
      MinHoleMap(InLeft(t.lab, t.right, c), t.left);
    }
  }
}
