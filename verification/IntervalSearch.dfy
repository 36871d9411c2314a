/**
 searchTree of common/misc/interval_tree.cc: a search that prunes subtrees,
 against the linear search it stands for.
 */
module IntervalSearch {
  import opened AvlTree

  // UInt64 subtraction.
  function Width(i: Interval): int {
    if i.first <= i.second then i.second - i.first else i.second - i.first + 0x1_0000_0000_0000_0000
  }

  predicate Contains(s: Interval, req: Interval) {
    s.first <= req.first && req.second <= s.second
  }

  // What a caller asks for: the request itself is free, or room enough later on.
  predicate Suits(s: Interval, req: Interval) {
    Contains(s, req) || (req.first < s.first && Width(s) >= Width(req))
  }

  function Span<C>(t: Tree<C>): Interval
    requires t.Branch?
  {
    t.lab.entry.item.span
  }

  // searchTree: the subtree whose root is found, or Leaf.
  function SearchTree<C>(t: Tree<C>, req: Interval): (r: Tree<C>) {
    if t.Leaf? then Leaf
    else if Contains(Span(t), req) then t
    else
      var found := if req.second < Span(t).first then SearchTree(t.left, req) else Leaf;
      if found.Branch? then found
      else if req.first < Span(t).first && Width(Span(t)) >= Width(req) then t
      else SearchTree(t.right, req)
  }

  function Found<C>(t: Tree<C>): Option<Entry<C>> {
    if t.Leaf? then None else Some(t.lab.entry)
  }

  // The reference: the leftmost entry that suits.
  function FirstFit<C>(l: List<Entry<C>>, req: Interval): Option<Entry<C>> {
    if l.Nil? then None
    else if Suits(l.head.item.span, req) then Some(l.head)
    else FirstFit(l.tail, req)
  }

  // ---------------------------------------------------------------- separation

  // Intervals start one after the other, with at least `gap` in between.  They may be empty.
  predicate Spread<C>(l: List<Entry<C>>, gap: nat) {
    l.Nil? ||
    (&& l.head.item.span.first <= l.head.item.span.second
     && (l.tail.Cons? ==> && l.head.item.span.second + gap <= l.tail.head.item.span.first
                          && l.head.item.span.first < l.tail.head.item.span.first)
     && Spread(l.tail, gap))
  }

  // The same for a tree: inside bounds, and starting before `cap`.
  predicate Spaced<C>(t: Tree<C>, lo: int, hi: int, cap: int, gap: nat) {
    t.Leaf? ||
    (&& lo <= Span(t).first < cap && Span(t).first <= Span(t).second <= hi
     && Spaced(t.left, lo, Span(t).first - gap, Span(t).first, gap)
     && Spaced(t.right, Max(Span(t).second + gap, Span(t).first + 1), hi, cap, gap))
  }

  predicate Within<C>(l: List<Entry<C>>, top: int) {
    l.Nil? || (l.head.item.span.second <= top && Within(l.tail, top))
  }

  lemma SpreadFlat<C>(t: Tree<C>, rest: List<Entry<C>>, gap: nat, top: int)
    requires Spread(Flat(t, rest), gap) && Within(Flat(t, rest), top)
    ensures Spread(rest, gap) && Within(rest, top)
  {
    if t.Branch? {
      SpreadFlat(t.left, Cons(t.lab.entry, Flat(t.right, rest)), gap, top);
      SpreadFlat(t.right, rest, gap, top);
    }
  }

  // Where what precedes a list has to end and to start.
  function EndOf<C>(rest: List<Entry<C>>, gap: nat, top: int): int {
    if rest.Nil? then top else rest.head.item.span.first - gap
  }

  function CapOf<C>(rest: List<Entry<C>>, top: int): int {
    if rest.Nil? then top + 1 else rest.head.item.span.first
  }

  lemma {:induction false} SpreadSpaced<C>(t: Tree<C>, rest: List<Entry<C>>, gap: nat, lo: int, top: int)
    requires Spread(Flat(t, rest), gap) && Within(Flat(t, rest), top)
    requires Flat(t, rest).Cons? ==> lo <= Flat(t, rest).head.item.span.first
    ensures Spaced(t, lo, EndOf(rest, gap, top), CapOf(rest, top), gap)
    ensures rest.Cons? ==> lo <= rest.head.item.span.first
    decreases t
  {
    if t.Branch? {
      var (l, s) := (Cons(t.lab.entry, Flat(t.right, rest)), Span(t));
      SpreadFlat(t.left, l, gap, top);
      SpreadSpaced(t.left, l, gap, lo, top);
      SpreadSpaced(t.right, rest, gap, Max(s.second + gap, s.first + 1), top);
      SpreadFlat(t.right, rest, gap, top);
      SpacedEnd(t.right, rest, gap, s.first, s.second, top);
    }
  }

  // An interval followed by a tree ends and starts before what follows the tree.
  lemma SpacedEnd<C>(t: Tree<C>, rest: List<Entry<C>>, gap: nat, start: int, end: int, top: int)
    requires Spread(Flat(t, rest), gap) && Within(Flat(t, rest), top)
    requires Flat(t, rest).Cons? ==> end + gap <= Flat(t, rest).head.item.span.first && start < Flat(t, rest).head.item.span.first
    requires start <= end <= top
    ensures end <= EndOf(rest, gap, top) && start < CapOf(rest, top)
  {
    if t.Branch? {
      var l := Cons(t.lab.entry, Flat(t.right, rest));
      SpreadFlat(t.left, l, gap, top);
      SpacedEnd(t.left, l, gap, start, end, top);
      SpacedEnd(t.right, rest, gap, Span(t).first, Span(t).second, top);
    }
  }

  // ---------------------------------------------------------------- first fit on trees

  function First<C>(a: Option<Entry<C>>, b: Option<Entry<C>>): Option<Entry<C>> {
    if a.Some? then a else b
  }

  lemma FirstFitFlat<C>(t: Tree<C>, rest: List<Entry<C>>, req: Interval)
    ensures FirstFit(Flat(t, rest), req) == First(FirstFit(Flat(t, Nil), req), FirstFit(rest, req))
  {
    if t.Branch? {
      FirstFitFlat(t.left, Cons(t.lab.entry, Flat(t.right, rest)), req);
      FirstFitFlat(t.left, Cons(t.lab.entry, Flat(t.right, Nil)), req);
      FirstFitFlat(t.right, rest, req);
    }
  }

  lemma {:induction false} FirstFitBranch<C>(t: Tree<C>, req: Interval)
    requires t.Branch?
    ensures FirstFit(Flat(t, Nil), req) ==
      First(FirstFit(Flat(t.left, Nil), req),
            if Suits(Span(t), req) then Some(t.lab.entry) else FirstFit(Flat(t.right, Nil), req))
  {
    FirstFitFlat(t.left, Cons(t.lab.entry, Flat(t.right, Nil)), req);
  }

  // Nothing that ends before the request's end suits it.
  lemma NothingSuits<C>(t: Tree<C>, lo: int, hi: int, cap: int, gap: nat, req: Interval)
    requires Spaced(t, lo, hi, cap, gap) && req.first <= req.second && hi < req.second
    ensures FirstFit(Flat(t, Nil), req) == None
  {
    if t.Branch? {
      FirstFitBranch(t, req);
      NothingSuits(t.left, lo, Span(t).first - gap, Span(t).first, gap, req);
      NothingSuits(t.right, Max(Span(t).second + gap, Span(t).first + 1), hi, cap, gap, req);
    }
  }

  // With gaps between the stored intervals, the pruned search is the linear one.
  lemma {:induction false} SearchSpaced<C>(t: Tree<C>, lo: int, hi: int, cap: int, req: Interval)
    requires Spaced(t, lo, hi, cap, 1) && req.first <= req.second
    ensures Found(SearchTree(t, req)) == FirstFit(Flat(t, Nil), req)
    decreases t
  {
    if t.Branch? {
      FirstFitBranch(t, req);
      if req.second < Span(t).first {
        SearchSpaced(t.left, lo, Span(t).first - 1, Span(t).first, req);
      } else {
        NothingSuits(t.left, lo, Span(t).first - 1, Span(t).first, 1, req);
      }
      SearchSpaced(t.right, Span(t).second + 1, hi, cap, req);
    }
  }

  // Where the first interval of a list starts.
  function Start<C>(l: List<Entry<C>>): int {
    if l.Nil? then 0 else l.head.item.span.first
  }

  // searchTree returns the leftmost entry that contains the request or starts
  // later and is long enough, and nothing exactly when there is none.
  lemma {:induction false} SearchIsFirstFit<C>(t: Tree<C>, req: Interval)
    requires Spread(Flat(t, Nil), 1) && req.first <= req.second
    ensures Found(SearchTree(t, req)) == FirstFit(Flat(t, Nil), req)
  {
    var (l, top) := (Flat(t, Nil), TopOf(Flat(t, Nil)));
    SpreadSpaced(t, Nil, 1, Start(l), top);
    SearchSpaced(t, Start(l), top, top + 1, req);
  }

  // A bound on where the intervals end.
  function TopOf<C>(l: List<Entry<C>>): (top: int)
    ensures Within(l, top)
  {
    if l.Nil? then 0
    else
      var top := Max(l.head.item.span.second, TopOf(l.tail));
      WithinMore(l.tail, TopOf(l.tail), top);
      top
  }

  lemma WithinMore<C>(l: List<Entry<C>>, a: int, b: int)
    requires Within(l, a) && a <= b
    ensures Within(l, b)
  {}

  // ---------------------------------------------------------------- touching intervals

  predicate Holds<C>(t: Tree<C>, req: Interval) {
    t.Branch? && (Contains(Span(t), req) || Holds(t.left, req) || Holds(t.right, req))
  }

  // The request ends where a node starts that has the interval holding the
  // request in its left subtree: the prune looks away from it.
  predicate Hidden<C>(t: Tree<C>, req: Interval) {
    t.Branch? &&
    (|| (Span(t).first == req.second && Holds(t.left, req))
     || Hidden(t.left, req) || Hidden(t.right, req))
  }

  lemma HoldsBounds<C>(t: Tree<C>, lo: int, hi: int, cap: int, req: Interval)
    requires Spaced(t, lo, hi, cap, 0)
    ensures Holds(t, req) ==> lo <= req.first && req.second <= hi
    ensures Hidden(t, req) ==> Holds(t, req) && lo < req.second < cap
  {
    if t.Branch? {
      HoldsBefore(t.left, lo, Span(t).first, Span(t).first, req);
    }
  }

  // An interval that holds the request starts before the bound on starts.
  lemma HoldsBefore<C>(t: Tree<C>, lo: int, hi: int, cap: int, req: Interval)
    requires Spaced(t, lo, hi, cap, 0)
    ensures Holds(t, req) ==> lo < cap
  {}

  lemma HoldsFits<C>(t: Tree<C>, req: Interval)
    requires Holds(t, req)
    ensures FirstFit(Flat(t, Nil), req).Some?
  {
    FirstFitBranch(t, req);
    if !Contains(Span(t), req) {
      if Holds(t.left, req) {
        HoldsFits(t.left, req);
      } else {
        HoldsFits(t.right, req);
      }
    }
  }

  // Of intervals ending no later than the request, only one that holds it can suit it.
  lemma SuitsHolds<C>(t: Tree<C>, lo: int, hi: int, cap: int, req: Interval)
    requires Spaced(t, lo, hi, cap, 0) && req.first <= req.second && hi <= req.second
    ensures FirstFit(Flat(t, Nil), req).Some? == Holds(t, req)
  {
    if t.Branch? {
      FirstFitBranch(t, req);
      SuitsHolds(t.left, lo, Span(t).first, Span(t).first, req);
      SuitsHolds(t.right, Max(Span(t).second, Span(t).first + 1), hi, cap, req);
    }
  }

  predicate StartsIn<C>(o: Option<Entry<C>>, lo: int, cap: int) {
    o.Some? ==> lo <= o.value.item.span.first < cap
  }

  lemma FitsBounds<C>(t: Tree<C>, lo: int, hi: int, cap: int, req: Interval)
    requires Spaced(t, lo, hi, cap, 0)
    ensures StartsIn(FirstFit(Flat(t, Nil), req), lo, cap)
    ensures StartsIn(Found(SearchTree(t, req)), lo, cap)
  {
    if t.Branch? {
      FirstFitBranch(t, req);
      FitsBounds(t.left, lo, Span(t).first, Span(t).first, req);
      FitsBounds(t.right, Max(Span(t).second, Span(t).first + 1), hi, cap, req);
    }
  }

  lemma {:induction false} SearchClose<C>(t: Tree<C>, lo: int, hi: int, cap: int, req: Interval)
    requires Spaced(t, lo, hi, cap, 0) && req.first <= req.second
    ensures Found(SearchTree(t, req)) == FirstFit(Flat(t, Nil), req) <==> !Hidden(t, req)
    decreases t
  {
    if t.Branch? {
      var s := Span(t);
      var after := Max(s.second, s.first + 1);
      FirstFitBranch(t, req);
      HoldsBounds(t.left, lo, s.first, s.first, req);
      HoldsBounds(t.right, after, hi, cap, req);
      FitsBounds(t.left, lo, s.first, s.first, req);
      FitsBounds(t.right, after, hi, cap, req);
      SearchClose(t.left, lo, s.first, s.first, req);
      SearchClose(t.right, after, hi, cap, req);
      if Hidden(t.left, req) {
        HoldsFits(t.left, req);
      }
      if s.first <= req.second {
        SuitsHolds(t.left, lo, s.first, s.first, req);
      }
    }
  }

  // When stored intervals may touch, the search finds the leftmost one that
  // suits if and only if that one is not hidden.
  lemma {:induction false} SearchTouching<C>(t: Tree<C>, req: Interval)
    requires Spread(Flat(t, Nil), 0) && req.first <= req.second
    ensures Found(SearchTree(t, req)) == FirstFit(Flat(t, Nil), req) <==> !Hidden(t, req)
  {
    var (l, top) := (Flat(t, Nil), TopOf(Flat(t, Nil)));
    SpreadSpaced(t, Nil, 0, Start(l), top);
    SearchClose(t, Start(l), top, top + 1, req);
  }

  // Two touching intervals, stored with the left one below the right one.
  lemma {:induction false} TouchingDefeatsPrune(cell: int)
    ensures var l := Branch(Label(Entry(cell, Item(0, Interval(0, 10))), 1), Leaf, Leaf);
      var t := Branch(Label(Entry(cell, Item(10, Interval(10, 20))), 2), l, Leaf);
      var req := Interval(3, 10);
      && Avl(t) && Spread(Flat(t, Nil), 0)
      && FirstFit(Flat(t, Nil), req) == Some(l.lab.entry)
      && SearchTree(t, req) == t
  {
    var l := Branch(Label(Entry(cell, Item(0, Interval(0, 10))), 1), Leaf, Leaf);
    var t := Branch(Label(Entry(cell, Item(10, Interval(10, 20))), 2), l, Leaf);
    assert Flat(l, Cons(t.lab.entry, Nil)) == Cons(l.lab.entry, Cons(t.lab.entry, Nil));
    assert Flat(t, Nil) == Cons(l.lab.entry, Cons(t.lab.entry, Nil));
  }
}
