/**
 The AVL interval tree of common/misc/interval_tree.cc as a value.

 A tree carries, for every node, the object that stores it (`cell`), so the
 functions below say which object ends up where.  `Ctx` is the path from a
 subtree up to the root: the code climbs it through parent pointers.
 The reference for the contents of a tree is the sorted list of its entries.
 */
module AvlTree {

  datatype Option<T> = None | Some(value: T)
  datatype List<T> = Nil | Cons(head: T, tail: List<T>)

  datatype Interval = Interval(first: nat, second: nat)
  datatype Item = Item(key: nat, span: Interval)

  // An item and the node object that stores it.
  datatype Entry<C> = Entry(cell: C, item: Item)

  // What one node object stores, besides its links.
  datatype Label<C> = Label(entry: Entry<C>, height: int)

  datatype Tree<C> = Leaf | Branch(lab: Label<C>, left: Tree<C>, right: Tree<C>)

  // The surroundings of a subtree: it hangs to the left or right of `lab`.
  datatype Ctx<C> =
    | Top
    | InLeft(lab: Label<C>, right: Tree<C>, up: Ctx<C>)
    | InRight(lab: Label<C>, left: Tree<C>, up: Ctx<C>)

  function Max(a: int, b: int): int {
    if a > b then a else b
  }

  function Key<C>(t: Tree<C>): nat
    requires t.Branch?
  {
    t.lab.entry.item.key
  }

  function Height<C>(t: Tree<C>): int {
    if t.Leaf? then 0 else t.lab.height
  }

  predicate HeightBalanced<C>(t: Tree<C>)
    requires t.Branch?
  {
    -1 <= Height(t.left) - Height(t.right) <= 1
  }

  function UpdateHeight<C>(t: Tree<C>): Tree<C>
    requires t.Branch?
  {
    Branch(t.lab.(height := Max(Height(t.left), Height(t.right)) + 1), t.left, t.right)
  }

  // The entries of `t` in tree order, followed by `rest`.
  function Flat<C>(t: Tree<C>, rest: List<Entry<C>>): List<Entry<C>> {
    if t.Leaf? then rest else Flat(t.left, Cons(t.lab.entry, Flat(t.right, rest)))
  }

  // The tree hanging in `c`, with its parent's node put back on top.
  function Enclose<C>(c: Ctx<C>, t: Tree<C>): (r: Tree<C>)
    requires !c.Top?
  {
    if c.InLeft? then Branch(c.lab, t, c.right) else Branch(c.lab, c.left, t)
  }

  // The hanging tree put back into all its surroundings.
  function Plug<C>(c: Ctx<C>, t: Tree<C>): Tree<C>
    decreases c
  {
    if c.Top? then t else Plug(c.up, Enclose(c, t))
  }

  // The entries after the hole, in tree order.
  function After<C>(c: Ctx<C>): List<Entry<C>> {
    match c
    case Top => Nil
    case InLeft(lab, right, up) => Cons(lab.entry, Flat(right, After(up)))
    case InRight(lab, left, up) => After(up)
  }

  // The entries before the hole, in tree order, followed by `rest`.
  function Before<C>(c: Ctx<C>, rest: List<Entry<C>>): List<Entry<C>> {
    match c
    case Top => rest
    case InLeft(lab, right, up) => Before(up, rest)
    case InRight(lab, left, up) => Before(up, Flat(left, Cons(lab.entry, rest)))
  }

  lemma {:induction false} PlugFlat<C>(c: Ctx<C>, t: Tree<C>)
    ensures Flat(Plug(c, t), Nil) == Before(c, Flat(t, After(c)))
    decreases c
  {
    if !c.Top? {
      PlugFlat(c.up, Enclose(c, t));
    }
  }

  // ---------------------------------------------------------------- rotations

  // performRotation(y, CLOCKWISE)
  function RotateClockwise<C>(t: Tree<C>): (r: Tree<C>)
    requires t.Branch? && t.left.Branch?
  {
    UpdateHeight(Branch(t.left.lab, t.left.left, UpdateHeight(Branch(t.lab, t.left.right, t.right))))
  }

  // performRotation(y, ANTI_CLOCKWISE)
  function RotateAntiClockwise<C>(t: Tree<C>): (r: Tree<C>)
    requires t.Branch? && t.right.Branch?
  {
    UpdateHeight(Branch(t.right.lab, UpdateHeight(Branch(t.lab, t.left, t.right.left)), t.right.right))
  }

  // The subtrees a rotation reaches into exist.
  predicate Rotatable<C>(z: Tree<C>) {
    && z.Branch?
    && Height(z.left) != Height(z.right)
    && (if Height(z.left) > Height(z.right)
        then z.left.Branch? && (Height(z.left.left) < Height(z.left.right) ==> z.left.right.Branch?)
        else z.right.Branch? && (Height(z.right.left) > Height(z.right.right) ==> z.right.left.Branch?))
  }

  function BalanceHeight<C>(z: Tree<C>): (r: Tree<C>)
    requires Rotatable(z)
  {
    if Height(z.left) > Height(z.right) then
      if Height(z.left.left) < Height(z.left.right) then
        RotateClockwise(Branch(z.lab, RotateAntiClockwise(z.left), z.right))
      else
        RotateClockwise(z)
    else
      if Height(z.right.left) > Height(z.right.right) then
        RotateAntiClockwise(Branch(z.lab, z.left, RotateClockwise(z.right)))
      else
        RotateAntiClockwise(z)
  }

  predicate Fixable<C>(t: Tree<C>) {
    t.Branch? && (HeightBalanced(t) || Rotatable(t))
  }

  // One round of rebalanceAVLTree at the root of `t`.
  function Fix<C>(t: Tree<C>): (r: Tree<C>)
    requires Fixable(t)
  {
    if HeightBalanced(t) then UpdateHeight(t) else BalanceHeight(t)
  }

  lemma ClockwiseFlat<C>(t: Tree<C>, rest: List<Entry<C>>)
    requires t.Branch? && t.left.Branch?
    ensures Flat(RotateClockwise(t), rest) == Flat(t, rest)
  {}

  lemma AntiClockwiseFlat<C>(t: Tree<C>, rest: List<Entry<C>>)
    requires t.Branch? && t.right.Branch?
    ensures Flat(RotateAntiClockwise(t), rest) == Flat(t, rest)
  {}

  lemma FixFlat<C>(t: Tree<C>, rest: List<Entry<C>>)
    requires Fixable(t)
    ensures Flat(Fix(t), rest) == Flat(t, rest)
  {
    if !HeightBalanced(t) {
      if Height(t.left) > Height(t.right) {
        if Height(t.left.left) < Height(t.left.right) {
          AntiClockwiseFlat(t.left, Cons(t.lab.entry, Flat(t.right, rest)));
          ClockwiseFlat(Branch(t.lab, RotateAntiClockwise(t.left), t.right), rest);
        } else {
          ClockwiseFlat(t, rest);
        }
      } else if Height(t.right.left) > Height(t.right.right) {
        ClockwiseFlat(t.right, rest);
        AntiClockwiseFlat(Branch(t.lab, t.left, RotateClockwise(t.right)), rest);
      } else {
        AntiClockwiseFlat(t, rest);
      }
    }
  }

  // ---------------------------------------------------------------- balance

  // Stored heights are exact and siblings differ by at most one.
  predicate Avl<C>(t: Tree<C>) {
    t.Leaf? ||
    (&& Avl(t.left) && Avl(t.right)
     && HeightBalanced(t)
     && t.lab.height == Max(Height(t.left), Height(t.right)) + 1)
  }

  predicate Fits(stored: int, h1: int, h2: int) {
    -1 <= h1 - h2 <= 1 && stored == Max(h1, h2) + 1
  }

  // Plugging an AVL tree of height `h` makes the whole tree an AVL tree.
  predicate AvlCtx<C>(c: Ctx<C>, h: int) {
    match c
    case Top => true
    case InLeft(lab, right, up) => Avl(right) && Fits(lab.height, h, Height(right)) && AvlCtx(up, lab.height)
    case InRight(lab, left, up) => Avl(left) && Fits(lab.height, Height(left), h) && AvlCtx(up, lab.height)
  }

  // One child is within one of the height it had when the stored height of
  // `t`, now stale, was exact.
  predicate Stale<C>(t: Tree<C>) {
    && t.Branch? && Avl(t.left) && Avl(t.right)
    && (var (s, l, r) := (t.lab.height, Height(t.left), Height(t.right));
        Fits(s, l, r) || Fits(s, l - 1, r) || Fits(s, l + 1, r) || Fits(s, l, r - 1) || Fits(s, l, r + 1))
  }

  lemma AvlHeight<C>(t: Tree<C>)
    requires Avl(t)
    ensures Height(t) >= 0
    ensures t.Branch? ==> Height(t) >= 1
  {
    if t.Branch? {
      AvlHeight(t.left);
    }
  }

  lemma LeftHeavy<C>(z: Tree<C>)
    requires z.Branch? && Avl(z.left) && Avl(z.right) && Height(z.left) == Height(z.right) + 2
    ensures Rotatable(z) && Avl(BalanceHeight(z))
    ensures Height(z.left) <= Height(BalanceHeight(z)) <= Height(z.left) + 1
  {
    var y := z.left;
    AvlHeight(z.right);
    AvlHeight(y.left);
    AvlHeight(y.right);
    if Height(y.left) < Height(y.right) {
      var x := y.right;
      assert Avl(UpdateHeight(Branch(y.lab, y.left, x.left)));
      assert Avl(UpdateHeight(Branch(z.lab, x.right, z.right)));
    } else {
      assert Avl(UpdateHeight(Branch(z.lab, y.right, z.right)));
    }
  }

  lemma RightHeavy<C>(z: Tree<C>)
    requires z.Branch? && Avl(z.left) && Avl(z.right) && Height(z.right) == Height(z.left) + 2
    ensures Rotatable(z) && Avl(BalanceHeight(z))
    ensures Height(z.right) <= Height(BalanceHeight(z)) <= Height(z.right) + 1
  {
    var y := z.right;
    AvlHeight(z.left);
    AvlHeight(y.left);
    AvlHeight(y.right);
    if Height(y.left) > Height(y.right) {
      var x := y.left;
      assert Avl(UpdateHeight(Branch(z.lab, z.left, x.left)));
      assert Avl(UpdateHeight(Branch(y.lab, x.right, y.right)));
    } else {
      assert Avl(UpdateHeight(Branch(z.lab, z.left, y.left)));
    }
  }

  // A stale node can be repaired, and its repaired height is within one of the stale one.
  lemma {:induction false} FixRestores<C>(t: Tree<C>)
    requires Stale(t)
    ensures Fixable(t) && Avl(Fix(t))
    ensures -1 <= Height(Fix(t)) - t.lab.height <= 1
  {
    if Height(t.left) == Height(t.right) + 2 {
      LeftHeavy(t);
    } else if Height(t.right) == Height(t.left) + 2 {
      RightHeavy(t);
    }
  }

  // ---------------------------------------------------------------- climbing

  // Every node that rebalanceAVLTree repairs on its way up can be repaired.
  predicate Climbable<C>(c: Ctx<C>, t: Tree<C>)
    decreases c
  {
    && Fixable(t)
    && (Height(Fix(t)) != t.lab.height && !c.Top? ==> Climbable(c.up, Enclose(c, Fix(t))))
  }

  // rebalanceAVLTree started at `t`: repair, and climb only while the height changes.
  function Rebalance<C>(c: Ctx<C>, t: Tree<C>): (r: Tree<C>)
    requires Climbable(c, t)
    decreases c
  {
    if Height(Fix(t)) != t.lab.height && !c.Top?
    then Rebalance(c.up, Enclose(c, Fix(t)))
    else Plug(c, Fix(t))
  }

  // rebalanceAVLTree started at the parent of the subtree hanging in `c`, if there is one.
  function RebalanceAbove<C>(c: Ctx<C>, s: Tree<C>): (r: Tree<C>)
    requires !c.Top? ==> Climbable(c.up, Enclose(c, s))
  {
    if c.Top? then s else Rebalance(c.up, Enclose(c, s))
  }

  // Rebalancing moves no entry.
  lemma {:induction false} RebalanceFlat<C>(c: Ctx<C>, t: Tree<C>)
    requires Climbable(c, t)
    ensures Flat(Rebalance(c, t), Nil) == Before(c, Flat(t, After(c)))
    decreases c
  {
    FixFlat(t, After(c));
    if Height(Fix(t)) != t.lab.height && !c.Top? {
      RebalanceFlat(c.up, Enclose(c, Fix(t)));
    } else {
      PlugFlat(c, Fix(t));
    }
  }

  lemma {:induction false} PlugAvl<C>(c: Ctx<C>, t: Tree<C>)
    requires Avl(t) && AvlCtx(c, Height(t))
    ensures Avl(Plug(c, t))
    decreases c
  {
    if !c.Top? {
      PlugAvl(c.up, Enclose(c, t));
    }
  }

  // A parent whose child changed height by at most one is stale in its own surroundings.
  lemma {:induction false} StaleAbove<C>(c: Ctx<C>, h: int, f: Tree<C>)
    requires !c.Top? && AvlCtx(c, h) && Avl(f) && -1 <= Height(f) - h <= 1
    ensures Stale(Enclose(c, f)) && AvlCtx(c.up, Enclose(c, f).lab.height)
  {}

  // Stopping as soon as the height equals the stale one is sound: the whole tree is an AVL tree.
  lemma {:induction false} RebalanceRestores<C>(c: Ctx<C>, t: Tree<C>)
    requires Stale(t) && AvlCtx(c, t.lab.height)
    ensures Climbable(c, t)
    ensures Avl(Rebalance(c, t))
    decreases c
  {
    FixRestores(t);
    var f := Fix(t);
    if Height(f) == t.lab.height || c.Top? {
      PlugAvl(c, f);
    } else {
      StaleAbove(c, t.lab.height, f);
      RebalanceRestores(c.up, Enclose(c, f));
    }
  }

  // ---------------------------------------------------------------- sorted lists

  predicate AllAbove<C>(l: List<Entry<C>>, key: nat) {
    l.Nil? || (key < l.head.item.key && AllAbove(l.tail, key))
  }

  predicate Sorted<C>(l: List<Entry<C>>) {
    l.Nil? || (AllAbove(l.tail, l.head.item.key) && Sorted(l.tail))
  }

  predicate Has<C>(l: List<Entry<C>>, key: nat) {
    l.Cons? && (l.head.item.key == key || Has(l.tail, key))
  }

  // The list with an entry put before the first key that is not smaller.
  function InsertSorted<C>(l: List<Entry<C>>, x: Entry<C>): List<Entry<C>> {
    if l.Cons? && l.head.item.key < x.item.key then Cons(l.head, InsertSorted(l.tail, x)) else Cons(x, l)
  }

  function Items<C>(l: List<Entry<C>>): List<Item> {
    if l.Nil? then Nil else Cons(l.head.item, Items(l.tail))
  }

  // The list without the first item of that key.
  function RemoveKey(l: List<Item>, key: nat): List<Item> {
    if l.Nil? then Nil
    else if l.head.key == key then l.tail
    else Cons(l.head, RemoveKey(l.tail, key))
  }

  lemma AboveTransitive<C>(l: List<Entry<C>>, a: nat, b: nat)
    requires AllAbove(l, b) && a <= b
    ensures AllAbove(l, a)
  {}

  lemma AboveInsert<C>(l: List<Entry<C>>, x: Entry<C>, a: nat)
    requires AllAbove(l, a) && a < x.item.key
    ensures AllAbove(InsertSorted(l, x), a)
  {}

  lemma SortedInsertSorted<C>(l: List<Entry<C>>, x: Entry<C>)
    requires Sorted(l) && !Has(l, x.item.key)
    ensures Sorted(InsertSorted(l, x))
  {
    if l.Cons? {
      if l.head.item.key < x.item.key {
        AboveInsert(l.tail, x, l.head.item.key);
      } else {
        AboveTransitive(l.tail, x.item.key, l.head.item.key);
      }
    }
  }

  lemma AboveHasNot<C>(l: List<Entry<C>>, key: nat)
    requires AllAbove(l, key)
    ensures !Has(l, key)
  {}

  // ---------------------------------------------------------------- order in trees

  predicate AllBelow<C>(t: Tree<C>, key: nat) {
    t.Leaf? || (Key(t) < key && AllBelow(t.left, key) && AllBelow(t.right, key))
  }

  // Every entry before the hole has a smaller key.
  predicate BelowHole<C>(c: Ctx<C>, key: nat) {
    match c
    case Top => true
    case InLeft(lab, right, up) => BelowHole(up, key)
    case InRight(lab, left, up) => AllBelow(left, key) && lab.entry.item.key < key && BelowHole(up, key)
  }

  lemma SortedFlat<C>(t: Tree<C>, rest: List<Entry<C>>)
    requires Sorted(Flat(t, rest))
    ensures Sorted(rest)
    ensures forall k: nat :: AllAbove(Flat(t, rest), k) ==> AllAbove(rest, k)
    ensures rest.Cons? ==> AllBelow(t, rest.head.item.key)
  {
    if t.Branch? {
      var r := Cons(t.lab.entry, Flat(t.right, rest));
      SortedFlat(t.left, r);
      SortedFlat(t.right, rest);
      if rest.Cons? {
        BelowTransitive(t.left, Key(t), rest.head.item.key);
      }
    }
  }

  lemma BelowTransitive<C>(t: Tree<C>, a: nat, b: nat)
    requires AllBelow(t, a) && a <= b
    ensures AllBelow(t, b)
  {}

  lemma SortedBefore<C>(c: Ctx<C>, l: List<Entry<C>>)
    requires Sorted(Before(c, l))
    ensures Sorted(l)
    decreases c
  {
    match c
    case Top =>
    case InLeft(lab, right, up) => SortedBefore(up, l);
    case InRight(lab, left, up) =>
      SortedBefore(up, Flat(left, Cons(lab.entry, l)));
      SortedFlat(left, Cons(lab.entry, l));
  }

  // Sorted insertion of a larger key skips the entries of `t`.
  lemma InsertSkipsTree<C>(t: Tree<C>, l: List<Entry<C>>, x: Entry<C>)
    requires AllBelow(t, x.item.key)
    ensures InsertSorted(Flat(t, l), x) == Flat(t, InsertSorted(l, x))
    ensures Has(Flat(t, l), x.item.key) == Has(l, x.item.key)
  {
    if t.Branch? {
      InsertSkipsTree(t.left, Cons(t.lab.entry, Flat(t.right, l)), x);
    }
  }

  lemma {:induction false} InsertSkipsBefore<C>(c: Ctx<C>, l: List<Entry<C>>, x: Entry<C>)
    requires BelowHole(c, x.item.key)
    ensures InsertSorted(Before(c, l), x) == Before(c, InsertSorted(l, x))
    ensures Has(Before(c, l), x.item.key) == Has(l, x.item.key)
    decreases c
  {
    match c
    case Top =>
    case InLeft(lab, right, up) => InsertSkipsBefore(up, l, x);
    case InRight(lab, left, up) =>
      InsertSkipsBefore(up, Flat(left, Cons(lab.entry, l)), x);
      InsertSkipsTree(left, Cons(lab.entry, l), x);
  }

  // ---------------------------------------------------------------- insertion

  // insertInTree: None when a node with the same key is met.
  function Insert<C>(c: Ctx<C>, t: Tree<C>, lab: Label<C>): (r: Option<Tree<C>>)
    requires t.Branch? && Avl(t) && AvlCtx(c, Height(t)) && lab.height == 1
    decreases t
  {
    if lab.entry.item.key < Key(t) then
      if t.left.Branch? then Insert(InLeft(t.lab, t.right, c), t.left, lab)
      else
        var u := Branch(t.lab, Branch(lab, Leaf, Leaf), t.right);
        RebalanceRestores(c, u);
        Some(Rebalance(c, u))
    else if lab.entry.item.key > Key(t) then
      if t.right.Branch? then Insert(InRight(t.lab, t.left, c), t.right, lab)
      else
        var u := Branch(t.lab, t.left, Branch(lab, Leaf, Leaf));
        RebalanceRestores(c, u);
        Some(Rebalance(c, u))
    else None
  }

  // A new leaf hung at the place where its key belongs, and the tree rebalanced.
  lemma {:induction false} InsertHere<C>(c: Ctx<C>, t: Tree<C>, u: Tree<C>, x: Entry<C>)
    requires t.Branch? && Avl(t) && AvlCtx(c, Height(t)) && Stale(u) && u.lab.height == t.lab.height
    requires Flat(u, After(c)) == InsertSorted(Flat(t, After(c)), x)
    requires BelowHole(c, x.item.key) && !Has(Flat(t, After(c)), x.item.key)
    requires Sorted(Before(c, Flat(t, After(c))))
    ensures var es := Before(c, Flat(t, After(c)));
      && Climbable(c, u) && Avl(Rebalance(c, u)) && !Has(es, x.item.key)
      && Flat(Rebalance(c, u), Nil) == InsertSorted(es, x)
      && Sorted(Flat(Rebalance(c, u), Nil))
  {
    InsertSkipsBefore(c, Flat(t, After(c)), x);
    SortedInsertSorted(Before(c, Flat(t, After(c))), x);
    RebalanceRestores(c, u);
    RebalanceFlat(c, u);
  }

  lemma {:induction false} NewLeftLeaf<C>(t: Tree<C>, lab: Label<C>, a: List<Entry<C>>)
    requires t.Branch? && t.left.Leaf? && lab.entry.item.key < Key(t)
    ensures Flat(Branch(t.lab, Branch(lab, Leaf, Leaf), t.right), a) == InsertSorted(Flat(t, a), lab.entry)
  {
    var l := Cons(t.lab.entry, Flat(t.right, a));
    assert Flat(Branch(lab, Leaf, Leaf), l) == Cons(lab.entry, l);
  }

  lemma {:induction false} NewRightLeaf<C>(t: Tree<C>, lab: Label<C>, a: List<Entry<C>>)
    requires t.Branch? && t.right.Leaf? && lab.entry.item.key > Key(t)
    requires AllBelow(t.left, lab.entry.item.key) && AllAbove(a, lab.entry.item.key)
    ensures Flat(Branch(t.lab, t.left, Branch(lab, Leaf, Leaf)), a) == InsertSorted(Flat(t, a), lab.entry)
  {
    assert Flat(Branch(lab, Leaf, Leaf), a) == Cons(lab.entry, a);
    InsertSkipsTree(t.left, Cons(t.lab.entry, a), lab.entry);
  }

  // Insertion fails exactly on a key already present; otherwise the tree stays
  // an AVL tree and its entries are the sorted insertion into the old ones.
  lemma {:induction false} InsertSpec<C>(c: Ctx<C>, t: Tree<C>, lab: Label<C>)
    requires t.Branch? && Avl(t) && AvlCtx(c, Height(t)) && lab.height == 1
    requires BelowHole(c, lab.entry.item.key) && AllAbove(After(c), lab.entry.item.key)
    requires Sorted(Before(c, Flat(t, After(c))))
    ensures var es := Before(c, Flat(t, After(c)));
      match Insert(c, t, lab)
      case None => Has(es, lab.entry.item.key)
      case Some(r) =>
        && !Has(es, lab.entry.item.key)
        && Avl(r)
        && Flat(r, Nil) == InsertSorted(es, lab.entry)
        && Sorted(Flat(r, Nil))
    decreases t
  {
    var x, k, a := lab.entry, lab.entry.item.key, After(c);
    var l := Cons(t.lab.entry, Flat(t.right, a));
    SortedBefore(c, Flat(t, a));
    SortedFlat(t.left, l);
    SortedFlat(t.right, a);
    if k < Key(t) {
      AboveTransitive(l.tail, k, Key(t));
      if t.left.Branch? {
        InsertSpec(InLeft(t.lab, t.right, c), t.left, lab);
      } else {
        AboveHasNot(l, k);
        NewLeftLeaf(t, lab, a);
        InsertHere(c, t, Branch(t.lab, Branch(lab, Leaf, Leaf), t.right), x);
      }
    } else {
      BelowTransitive(t.left, Key(t), k);
      InsertSkipsTree(t.left, l, x);
      if k == Key(t) {
        InsertSkipsBefore(c, Flat(t, a), x);
      } else if t.right.Branch? {
        InsertSpec(InRight(t.lab, t.left, c), t.right, lab);
      } else {
        AboveHasNot(a, k);
        NewRightLeaf(t, lab, a);
        InsertHere(c, t, Branch(t.lab, t.left, Branch(lab, Leaf, Leaf)), x);
      }
    }
  }

  // ---------------------------------------------------------------- node objects

  ghost function Cells<C>(t: Tree<C>): set<C> {
    if t.Leaf? then {} else {t.lab.entry.cell} + Cells(t.left) + Cells(t.right)
  }

  ghost function CtxCells<C>(c: Ctx<C>): set<C> {
    match c
    case Top => {}
    case InLeft(lab, right, up) => {lab.entry.cell} + Cells(right) + CtxCells(up)
    case InRight(lab, left, up) => {lab.entry.cell} + Cells(left) + CtxCells(up)
  }

  // No object stores two nodes of the tree.
  ghost predicate Distinct<C>(t: Tree<C>) {
    t.Leaf? ||
    (&& Distinct(t.left) && Distinct(t.right) && Cells(t.left) !! Cells(t.right)
     && t.lab.entry.cell !in Cells(t.left) && t.lab.entry.cell !in Cells(t.right))
  }

  ghost predicate CtxDistinct<C>(c: Ctx<C>) {
    c.Top? ||
    (var side := if c.InLeft? then c.right else c.left;
     && Distinct(side) && CtxDistinct(c.up) && Cells(side) !! CtxCells(c.up)
     && c.lab.entry.cell !in Cells(side) && c.lab.entry.cell !in CtxCells(c.up))
  }

  ghost predicate DistinctIn<C>(c: Ctx<C>, t: Tree<C>) {
    Distinct(t) && CtxDistinct(c) && Cells(t) !! CtxCells(c)
  }

  lemma {:induction false} EncloseCells<C>(c: Ctx<C>, t: Tree<C>)
    requires !c.Top? && DistinctIn(c, t)
    ensures DistinctIn(c.up, Enclose(c, t))
    ensures Cells(Enclose(c, t)) + CtxCells(c.up) == Cells(t) + CtxCells(c)
  {}

  lemma {:induction false} PlugCells<C>(c: Ctx<C>, t: Tree<C>)
    requires DistinctIn(c, t)
    ensures Distinct(Plug(c, t)) && Cells(Plug(c, t)) == Cells(t) + CtxCells(c)
    decreases c
  {
    if !c.Top? {
      EncloseCells(c, t);
      PlugCells(c.up, Enclose(c, t));
    }
  }

  lemma {:induction false} ClockwiseCells<C>(t: Tree<C>)
    requires t.Branch? && t.left.Branch? && Distinct(t)
    ensures Distinct(RotateClockwise(t)) && Cells(RotateClockwise(t)) == Cells(t)
  {
    var y := UpdateHeight(Branch(t.lab, t.left.right, t.right));
    assert Distinct(y) && Cells(y) == {t.lab.entry.cell} + Cells(t.left.right) + Cells(t.right);
  }

  lemma {:induction false} AntiClockwiseCells<C>(t: Tree<C>)
    requires t.Branch? && t.right.Branch? && Distinct(t)
    ensures Distinct(RotateAntiClockwise(t)) && Cells(RotateAntiClockwise(t)) == Cells(t)
  {
    var y := UpdateHeight(Branch(t.lab, t.left, t.right.left));
    assert Distinct(y) && Cells(y) == {t.lab.entry.cell} + Cells(t.left) + Cells(t.right.left);
  }

  lemma {:induction false} FixCells<C>(t: Tree<C>)
    requires Fixable(t) && Distinct(t)
    ensures Distinct(Fix(t)) && Cells(Fix(t)) == Cells(t)
  {
    if !HeightBalanced(t) {
      if Height(t.left) > Height(t.right) {
        if Height(t.left.left) < Height(t.left.right) {
          AntiClockwiseCells(t.left);
          ClockwiseCells(Branch(t.lab, RotateAntiClockwise(t.left), t.right));
        } else {
          ClockwiseCells(t);
        }
      } else if Height(t.right.left) > Height(t.right.right) {
        ClockwiseCells(t.right);
        AntiClockwiseCells(Branch(t.lab, t.left, RotateClockwise(t.right)));
      } else {
        AntiClockwiseCells(t);
      }
    }
  }

  lemma {:induction false} RebalanceCells<C>(c: Ctx<C>, t: Tree<C>)
    requires Climbable(c, t) && DistinctIn(c, t)
    ensures Distinct(Rebalance(c, t)) && Cells(Rebalance(c, t)) == Cells(t) + CtxCells(c)
    decreases c
  {
    FixCells(t);
    if Height(Fix(t)) != t.lab.height && !c.Top? {
      EncloseCells(c, Fix(t));
      RebalanceCells(c.up, Enclose(c, Fix(t)));
    } else {
      PlugCells(c, Fix(t));
    }
  }

  // ---------------------------------------------------------------- removal

  function OnlyChild<C>(t: Tree<C>): Tree<C>
    requires t.Branch?
  {
    if t.left.Leaf? then t.right else t.left
  }

  // Taking out a node leaves its parent stale, ready to be rebalanced.
  lemma {:induction false} DetachReady<C>(c: Ctx<C>, t: Tree<C>)
    requires t.Branch? && (t.left.Leaf? || t.right.Leaf?) && Avl(t) && AvlCtx(c, Height(t))
    ensures !c.Top? ==> Climbable(c.up, Enclose(c, OnlyChild(t)))
    ensures Avl(RebalanceAbove(c, OnlyChild(t)))
  {
    AvlHeight(OnlyChild(t));
    if !c.Top? {
      StaleAbove(c, Height(t), OnlyChild(t));
      RebalanceRestores(c.up, Enclose(c, OnlyChild(t)));
    }
  }

  // removeFromTree for a node with at most one child.
  function Detach<C>(c: Ctx<C>, t: Tree<C>): (r: Tree<C>)
    requires t.Branch? && (t.left.Leaf? || t.right.Leaf?) && Avl(t) && AvlCtx(c, Height(t))
  {
    DetachReady(c, t);
    RebalanceAbove(c, OnlyChild(t))
  }

  lemma {:induction false} DetachSpec<C>(c: Ctx<C>, t: Tree<C>)
    requires t.Branch? && (t.left.Leaf? || t.right.Leaf?) && Avl(t) && AvlCtx(c, Height(t))
    requires DistinctIn(c, t)
    ensures Avl(Detach(c, t)) && Distinct(Detach(c, t))
    ensures Cells(Detach(c, t)) == Cells(t) + CtxCells(c) - {t.lab.entry.cell}
    ensures Flat(Detach(c, t), Nil) == Before(c, Flat(OnlyChild(t), After(c)))
  {
    var o := OnlyChild(t);
    assert Cells(o) == Cells(t) - {t.lab.entry.cell} && Distinct(o);
    if !c.Top? {
      DetachReady(c, t);
      RebalanceFlat(c.up, Enclose(c, o));
      EncloseCells(c, o);
      RebalanceCells(c.up, Enclose(c, o));
    }
  }

  // findMinKeyNode: the leftmost node of `t`, with its surroundings.
  function MinHole<C>(c: Ctx<C>, t: Tree<C>): (r: (Ctx<C>, Tree<C>))
    requires t.Branch?
    ensures r.1.Branch? && r.1.left.Leaf?
    decreases t
  {
    if t.left.Branch? then MinHole(InLeft(t.lab, t.right, c), t.left) else (c, t)
  }

  lemma {:induction false} MinHoleSpec<C>(c: Ctx<C>, t: Tree<C>)
    requires t.Branch? && Avl(t) && AvlCtx(c, Height(t)) && DistinctIn(c, t)
    ensures var (d, s) := MinHole(c, t);
      && Avl(s) && AvlCtx(d, Height(s)) && DistinctIn(d, s)
      && Cells(s) + CtxCells(d) == Cells(t) + CtxCells(c) && s.lab.entry.cell in Cells(t)
      && Flat(t, After(c)) == Cons(s.lab.entry, Flat(s.right, After(d)))
      && (forall l :: Before(d, l) == Before(c, l))
      && Plug(d, s) == Plug(c, t)
    decreases t
  {
    if t.left.Branch? {
      MinHoleSpec(InLeft(t.lab, t.right, c), t.left);
    }
  }

  // The tree with another item stored in one of its objects.
  function SetItem<C(==)>(t: Tree<C>, cell: C, item: Item): (r: Tree<C>) {
    if t.Leaf? then Leaf
    else
      Branch(if t.lab.entry.cell == cell then t.lab.(entry := Entry(cell, item)) else t.lab,
             SetItem(t.left, cell, item), SetItem(t.right, cell, item))
  }

  function SetItemIn<C(==)>(l: List<Entry<C>>, cell: C, item: Item): List<Entry<C>> {
    if l.Nil? then Nil
    else
      Cons(if l.head.cell == cell then Entry(cell, item) else l.head, SetItemIn(l.tail, cell, item))
  }

  ghost function CellsOf<C>(l: List<Entry<C>>): set<C> {
    if l.Nil? then {} else {l.head.cell} + CellsOf(l.tail)
  }

  lemma CellsFlat<C>(t: Tree<C>, rest: List<Entry<C>>)
    ensures CellsOf(Flat(t, rest)) == Cells(t) + CellsOf(rest)
  {}

  lemma CellsAfter<C>(c: Ctx<C>)
    ensures CellsOf(After(c)) <= CtxCells(c)
  {
    if c.InLeft? {
      CellsFlat(c.right, After(c.up));
    }
  }

  // Storing another item changes neither shape, heights nor objects.
  lemma SetItemAvl<C>(t: Tree<C>, cell: C, item: Item)
    requires Avl(t)
    ensures Avl(SetItem(t, cell, item)) && Height(SetItem(t, cell, item)) == Height(t)
  {}

  lemma SetItemCells<C>(t: Tree<C>, cell: C, item: Item)
    ensures Cells(SetItem(t, cell, item)) == Cells(t)
    ensures Distinct(t) ==> Distinct(SetItem(t, cell, item))
  {}

  lemma SetItemFlat<C>(t: Tree<C>, rest: List<Entry<C>>, cell: C, item: Item)
    ensures Flat(SetItem(t, cell, item), SetItemIn(rest, cell, item)) == SetItemIn(Flat(t, rest), cell, item)
  {}

  lemma SetItemElsewhere<C>(l: List<Entry<C>>, cell: C, item: Item)
    requires cell !in CellsOf(l)
    ensures SetItemIn(l, cell, item) == l
  {}

  lemma SetSkipsTree<C>(t: Tree<C>, l: List<Entry<C>>, cell: C, item: Item)
    requires cell !in Cells(t)
    ensures SetItemIn(Flat(t, l), cell, item) == Flat(t, SetItemIn(l, cell, item))
  {
    if t.Branch? {
      SetSkipsTree(t.left, Cons(t.lab.entry, Flat(t.right, l)), cell, item);
    }
  }

  lemma {:induction false} SetSkipsBefore<C>(c: Ctx<C>, l: List<Entry<C>>, cell: C, item: Item)
    requires cell !in CtxCells(c)
    ensures SetItemIn(Before(c, l), cell, item) == Before(c, SetItemIn(l, cell, item))
    decreases c
  {
    match c
    case Top =>
    case InLeft(lab, right, up) => SetSkipsBefore(up, l, cell, item);
    case InRight(lab, left, up) =>
      SetSkipsBefore(up, Flat(left, Cons(lab.entry, l)), cell, item);
      SetSkipsTree(left, Cons(lab.entry, l), cell, item);
  }

  // removeFromTree: the remaining tree, and the object taken out of it.
  function Remove<C(==)>(c: Ctx<C>, t: Tree<C>): (r: (Tree<C>, C))
    requires t.Branch? && Avl(t) && AvlCtx(c, Height(t)) && DistinctIn(c, t)
  {
    if t.left.Leaf? || t.right.Leaf? then (Detach(c, t), t.lab.entry.cell)
    else
      MinHoleSpec(InRight(t.lab, t.left, c), t.right);
      var (d, s) := MinHole(InRight(t.lab, t.left, c), t.right);
      (SetItem(Detach(d, s), t.lab.entry.cell, s.lab.entry.item), s.lab.entry.cell)
  }

  // Removing from the reference list skips smaller keys.
  lemma RemoveSkipsTree<C>(t: Tree<C>, l: List<Entry<C>>, l': List<Entry<C>>, key: nat)
    requires AllBelow(t, key) && Items(l') == RemoveKey(Items(l), key)
    ensures Items(Flat(t, l')) == RemoveKey(Items(Flat(t, l)), key)
  {
    if t.Branch? {
      RemoveSkipsTree(t.left, Cons(t.lab.entry, Flat(t.right, l)), Cons(t.lab.entry, Flat(t.right, l')), key);
    }
  }

  lemma {:induction false} RemoveSkipsBefore<C>(c: Ctx<C>, l: List<Entry<C>>, l': List<Entry<C>>, key: nat)
    requires BelowHole(c, key) && Items(l') == RemoveKey(Items(l), key)
    ensures Items(Before(c, l')) == RemoveKey(Items(Before(c, l)), key)
    decreases c
  {
    match c
    case Top =>
    case InLeft(lab, right, up) => RemoveSkipsBefore(up, l, l', key);
    case InRight(lab, left, up) =>
      RemoveSkipsTree(left, Cons(lab.entry, l), Cons(lab.entry, l'), key);
      RemoveSkipsBefore(up, Flat(left, Cons(lab.entry, l)), Flat(left, Cons(lab.entry, l')), key);
  }

  lemma FlatHead<C>(t: Tree<C>, l: List<Entry<C>>)
    requires Sorted(Flat(t, l)) && l.Cons?
    ensures Flat(t, l).Cons? && Flat(t, l).head.item.key <= l.head.item.key
  {
    if t.Branch? {
      SortedFlat(t.left, Cons(t.lab.entry, Flat(t.right, l)));
      SortedFlat(t.right, l);
      FlatHead(t.right, l);
    }
  }

  // What precedes the hole in a sorted tree is below what follows.
  lemma SortedBelowHole<C>(c: Ctx<C>, l: List<Entry<C>>, key: nat)
    requires Sorted(Before(c, l)) && l.Cons? && l.head.item.key <= key
    ensures BelowHole(c, key)
    decreases c
  {
    match c
    case Top =>
    case InLeft(lab, right, up) => SortedBelowHole(up, l, key);
    case InRight(lab, left, up) =>
      var m := Cons(lab.entry, l);
      SortedBefore(up, Flat(left, m));
      SortedFlat(left, m);
      BelowTransitive(left, m.head.item.key, key);
      FlatHead(left, m);
      SortedBelowHole(up, Flat(left, m), key);
  }

  // The entries left by a removal, before the object's items are compared.
  lemma {:induction false} RemoveFlat<C>(c: Ctx<C>, t: Tree<C>)
    requires t.Branch? && Avl(t) && AvlCtx(c, Height(t)) && DistinctIn(c, t)
    requires !t.left.Leaf? && !t.right.Leaf?
    ensures var (d, s) := MinHole(InRight(t.lab, t.left, c), t.right);
      var rest := Flat(s.right, After(d));
      && Flat(t, After(c)) == Flat(t.left, Cons(t.lab.entry, Cons(s.lab.entry, rest)))
      && Flat(Remove(c, t).0, Nil)
         == Before(c, Flat(t.left, Cons(Entry(t.lab.entry.cell, s.lab.entry.item), rest)))
  {
    var c0 := InRight(t.lab, t.left, c);
    MinHoleSpec(c0, t.right);
    var (d, s) := MinHole(c0, t.right);
    var rest := Flat(s.right, After(d));
    var cell, item := t.lab.entry.cell, s.lab.entry.item;
    DetachSpec(d, s);
    SetItemFlat(Detach(d, s), Nil, cell, item);
    SetSkipsBefore(c, Flat(t.left, Cons(t.lab.entry, rest)), cell, item);
    SetSkipsTree(t.left, Cons(t.lab.entry, rest), cell, item);
    CellsFlat(t.right, After(c));
    CellsAfter(c);
    assert cell !in CellsOf(rest);
    SetItemElsewhere(rest, cell, item);
  }

  // Removal leaves an AVL tree holding exactly the other items in order; one
  // object leaves the tree, and no other enters.
  lemma {:induction false} RemoveSpec<C>(c: Ctx<C>, t: Tree<C>)
    requires t.Branch? && Avl(t) && AvlCtx(c, Height(t)) && DistinctIn(c, t)
    requires Sorted(Before(c, Flat(t, After(c))))
    ensures var (r, gone) := Remove(c, t);
      && Avl(r) && Distinct(r) && gone in Cells(t)
      && Cells(r) == Cells(t) + CtxCells(c) - {gone}
      && Items(Flat(r, Nil)) == RemoveKey(Items(Before(c, Flat(t, After(c)))), Key(t))
  {
    var a := After(c);
    SortedBefore(c, Flat(t, a));
    SortedFlat(t.left, Cons(t.lab.entry, Flat(t.right, a)));
    FlatHead(t.left, Cons(t.lab.entry, Flat(t.right, a)));
    SortedBelowHole(c, Flat(t, a), Key(t));
    if t.left.Leaf? || t.right.Leaf? {
      DetachSpec(c, t);
      RemoveSkipsTree(t.left, Cons(t.lab.entry, Flat(t.right, a)), Flat(t.right, a), Key(t));
      RemoveSkipsBefore(c, Flat(t, a), Flat(OnlyChild(t), a), Key(t));
    } else {
      var c0 := InRight(t.lab, t.left, c);
      MinHoleSpec(c0, t.right);
      var (d, s) := MinHole(c0, t.right);
      var (cell, item) := (t.lab.entry.cell, s.lab.entry.item);
      var rest := Flat(s.right, After(d));
      RemoveFlat(c, t);
      DetachSpec(d, s);
      SetItemAvl(Detach(d, s), cell, item);
      SetItemCells(Detach(d, s), cell, item);
      var l, l' := Cons(t.lab.entry, Cons(s.lab.entry, rest)), Cons(Entry(cell, item), rest);
      assert Items(l') == RemoveKey(Items(l), Key(t));
      RemoveSkipsTree(t.left, l, l', Key(t));
      RemoveSkipsBefore(c, Flat(t, a), Flat(t.left, l'), Key(t));
    }
  }

  // Order and absence of a removed key, from the reference list.
  predicate SortedItems(l: List<Item>) {
    l.Nil? || (AboveItems(l.tail, l.head.key) && SortedItems(l.tail))
  }

  predicate AboveItems(l: List<Item>, key: nat) {
    l.Nil? || (key < l.head.key && AboveItems(l.tail, key))
  }

  lemma SortedByItems<C>(l: List<Entry<C>>)
    ensures Sorted(l) == SortedItems(Items(l))
    ensures forall k: nat :: AllAbove(l, k) == AboveItems(Items(l), k)
  {}

  lemma SortedRemove(l: List<Item>, key: nat)
    requires SortedItems(l)
    ensures SortedItems(RemoveKey(l, key))
    ensures forall k: nat :: AboveItems(l, k) ==> AboveItems(RemoveKey(l, key), k)
  {}
}
