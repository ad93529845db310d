/** The first half of rb_extract: a node with two children changes places with its predecessor
    (src/rbtree.c:33-41, src/rbtree.c:192-236). */
module RbSwaps {
  import opened RbShape
  import opened RbLinks
  import opened RbTrees
  import opened RbInsertion

  /** The subtree rooted at the last node of `l`. */
  function LastOf(l: Shape): Shape
    requires l.Node?
    ensures LastOf(l).Node? && LastOf(l).right.Nil?
  {
    if l.right.Nil? then l else LastOf(l.right)
  }

  /** `l` with `s` in place of the subtree rooted at its last node. */
  function WithLast(l: Shape, s: Shape): Shape
    requires l.Node?
  {
    if l.right.Nil? then s else Node(l.left, l.n, l.red, WithLast(l.right, s))
  }

  /** The context of the last node of `l`, when `l` sits in `c`. */
  function LastCtx(c: Ctx, l: Shape): Ctx
    requires l.Node?
    decreases l
  {
    if l.right.Nil? then c else LastCtx(Up(Right, l.n, l.red, l.left, c), l.right)
  }

  /** The parent of the last node. */
  function LastParent(l: Shape, q: Ptr): Ptr
    requires l.Node?
  {
    if l.right.Nil? then q else LastParent(l.right, l.n.at)
  }

  lemma {:induction false} LastInOrder(l: Shape)
    requires l.Node?
    ensures InOrder(l) == InOrder(WithLast(l, LastOf(l).left)) + [LastOf(l).n]
  {
    if l.right.Node? {
      LastInOrder(l.right);
      var s := LastOf(l).left;
      assert InOrder(WithLast(l, s)) == InOrder(l.left) + [l.n] + InOrder(WithLast(l.right, s));
    }
  }

  lemma {:induction false} LastPlug(c: Ctx, l: Shape, s: Shape)
    requires l.Node?
    ensures Plug(LastCtx(c, l), s) == Plug(c, WithLast(l, s))
    decreases l
  {
    if l.right.Node? {
      LastPlug(Up(Right, l.n, l.red, l.left, c), l.right, s);
    }
  }

  // ---------- the tree after the swap ----------

  /** The node `n` in the place (and colour) of the last node of `l`. */
  function Demoted(l: Shape, n: Id): Shape
    requires l.Node?
  {
    Node(LastOf(l).left, n, LastOf(l).red, Nil)
  }

  /** `t` with its root and that root's predecessor exchanged; colours stay with the positions. */
  function Swapped(t: Shape): Shape
    requires t.Node? && t.left.Node?
  {
    Node(WithLast(t.left, Demoted(t.left, t.n)), LastOf(t.left).n, t.red, t.right)
  }

  lemma {:induction false} WithLastNodes(l: Shape, s: Shape)
    requires l.Node? && Distinct(l)
    ensures Nodes(LastOf(l)) <= Nodes(l) && LastOf(l).n.at in Nodes(l) && Distinct(LastOf(l))
    ensures Nodes(WithLast(l, s)) == Nodes(l) - Nodes(LastOf(l)) + Nodes(s)
  {
    if l.right.Node? {
      WithLastNodes(l.right, s);
    }
  }

  lemma {:induction false} WithLastDistinct(l: Shape, s: Shape)
    requires l.Node? && Distinct(l) && Distinct(s) && Nodes(s) !! Nodes(l) - Nodes(LastOf(l))
    ensures Distinct(WithLast(l, s))
  {
    if l.right.Node? {
      WithLastNodes(l.right, s);
      WithLastDistinct(l.right, s);
    }
  }

  lemma DemotedNodes(t: Shape)
    requires t.Node? && t.left.Node? && Distinct(t)
    ensures
      var l := t.left;
      Nodes(Demoted(l, t.n)) == Nodes(LastOf(l)) - {LastOf(l).n.at} + {t.n.at} && Distinct(Demoted(l, t.n))
  {
    WithLastNodes(t.left, Nil);
  }

  lemma SwappedDistinct(t: Shape)
    requires t.Node? && t.left.Node? && Distinct(t)
    ensures Distinct(Swapped(t)) && Nodes(Swapped(t)) == Nodes(t)
  {
    var l, d := t.left, Demoted(t.left, t.n);
    DemotedNodes(t);
    WithLastNodes(l, d);
    WithLastDistinct(l, d);
  }

  /** What a node of `l` other than the last one holds after the swap. */
  function Patched(cell: Cell, x: Ptr, l: Shape, n: Ptr, pred: Ptr, q: Ptr): Cell
    requires l.Node?
  {
    var right := if x == LastParent(l, q) then n else cell.right;
    var parent := if x == l.n.at then pred
                  else if LastOf(l).left.Node? && x == LastOf(l).left.n.at then n
                  else cell.parent;
    cell.(right := right, parent := parent)
  }

  lemma {:induction false} LastParentIn(l: Shape, q: Ptr)
    requires l.Node? && l.right.Node?
    ensures LastParent(l, q) in Nodes(l)
  {
    if l.right.right.Node? {
      LastParentIn(l.right, l.n.at);
    }
  }

  lemma {:induction false} WithLastCell(l: Shape, n: Id, q: Ptr, pred: Ptr, x: Ptr)
    requires l.Node? && Distinct(l) && q !in Nodes(l) && n.at !in Nodes(l)
    requires x in Nodes(l) && x != LastOf(l).n.at
    ensures x in Nodes(WithLast(l, Demoted(l, n)))
    ensures CellAt(WithLast(l, Demoted(l, n)), pred, x) == Patched(CellAt(l, q, x), x, l, n.at, pred, q)
    decreases l
  {
    var s := Demoted(l, n);
    WithLastNodes(l, s);
    if l.right.Nil? {
      assert l.left.Node? && x in Nodes(l.left);
    } else {
      var r := l.right;
      WithLastNodes(r, s);
      if x in Nodes(r) {
        WithLastCell(r, n, l.n.at, l.n.at, x);
        if r.right.Node? {
          WithLastNodes(r.right, s);
          assert LastOf(l).left.Node? ==> LastOf(l).left.n.at in Nodes(LastOf(r.right));
        }
        assert Demoted(r, n) == s && LastOf(r) == LastOf(l);
        assert CellAt(WithLast(l, s), pred, x) == CellAt(WithLast(r, s), l.n.at, x);
        assert CellAt(l, q, x) == CellAt(r, l.n.at, x);
        assert x == r.n.at ==> CellAt(r, l.n.at, x).parent == l.n.at;
        assert LastParent(l, q) == LastParent(r, l.n.at);
        assert x == r.n.at ==> !(LastOf(l).left.Node? && x == LastOf(l).left.n.at);
      } else if x == l.n.at {
        assert LastParent(l, q) == LastParent(r, l.n.at);
        if r.right.Node? {
          LastParentIn(r, l.n.at);
          assert RootOf(WithLast(r, s)) == r.n.at;
        } else {
          assert WithLast(r, s) == s && LastParent(r, l.n.at) == x;
        }
        assert CellAt(WithLast(l, s), pred, x).right == RootOf(WithLast(r, s));
      } else {
        assert x in Nodes(l.left) && x !in Nodes(r);
        assert LastParent(l, q) == LastParent(r, l.n.at) && LastOf(l) == LastOf(r);
        if r.right.Node? {
          LastParentIn(r, l.n.at);
        } else {
          assert LastParent(r, l.n.at) == l.n.at;
        }
        assert LastOf(r).left.Node? ==> LastOf(r).left.n.at in Nodes(LastOf(r));
        assert CellAt(WithLast(l, s), pred, x) == CellAt(l.left, l.n.at, x) == CellAt(l, q, x);
      }
    }
  }

  /** What every node holds after the swap. */
  lemma SwappedCell(t: Shape, p: Ptr, x: Ptr)
    requires t.Node? && t.left.Node? && t.right.Node? && Distinct(t) && x in Nodes(t)
    ensures x in Nodes(Swapped(t))
    ensures
      var l, n, r := t.left, t.n, t.right;
      var last := LastOf(l);
      CellAt(Swapped(t), p, x) ==
        if x == n.at then Cell(RootOf(last.left), NULL, LastParent(l, last.n.at), last.red, n.fd)
        else if x == last.n.at then Cell(if l.right.Nil? then n.at else l.n.at, r.n.at, p, t.red, last.n.fd)
        else if x in Nodes(l) then Patched(CellAt(t, p, x), x, l, n.at, last.n.at, n.at)
        else if x == r.n.at then CellAt(t, p, x).(parent := last.n.at)
        else CellAt(t, p, x)
  {
    var l, n := t.left, t.n;
    var last, d := LastOf(l), Demoted(l, n);
    SwappedDistinct(t);
    DemotedNodes(t);
    WithLastNodes(l, d);
    if x == n.at {
      DemotedCell(l, n, last.n.at);
    } else if x in Nodes(l) && x != last.n.at {
      WithLastCell(l, n, n.at, last.n.at, x);
      assert CellAt(t, p, x) == CellAt(l, n.at, x);
    }
  }

  lemma {:induction false} DemotedCell(l: Shape, n: Id, q: Ptr)
    requires l.Node? && Distinct(l) && n.at !in Nodes(l)
    ensures n.at in Nodes(WithLast(l, Demoted(l, n)))
    ensures CellAt(WithLast(l, Demoted(l, n)), q, n.at)
         == Cell(RootOf(LastOf(l).left), NULL, LastParent(l, q), LastOf(l).red, n.fd)
  {
    if l.right.Node? {
      DemotedCell(l.right, n, l.n.at);
      assert Demoted(l.right, n) == Demoted(l, n);
    }
  }

  // ---------- the assignments ----------

  /** The pointers that the swap reads: `l`, `r` are the children of `curr`, `tl` is the left child of
      `pred`, `pp` its parent. */
  datatype Neighbours = Ptrs(curr: Ptr, pred: Ptr, l: Ptr, r: Ptr, tl: Ptr, pp: Ptr)

  predicate PtrsOk(m: Mem, a: Neighbours, place: Place) {
    && a.curr in m && a.pred in m && a.l in m && a.r in m && a.pp in m && (a.tl != NULL ==> a.tl in m)
    && a.r != NULL
    && m[a.curr].left == a.l && m[a.curr].right == a.r && m[a.pred].left == a.tl && m[a.pred].parent == a.pp
    && a.curr != a.pred && a.curr != a.l && a.curr != a.r && a.curr != a.tl
    && a.pred != a.r && a.pred != a.tl && a.pred != a.pp && a.r != a.l && a.r != a.tl && a.r != a.pp
    && a.tl != a.l && a.tl != a.pp && (a.l == a.pred <==> a.pp == a.curr)
    && (place.ChildRef? ==> place.p in m && place.p !in {a.curr, a.pred, a.l, a.r, a.tl, a.pp})
  }

  function PutLink(m: Mem, place: Place, x: Ptr): Mem
    requires place.ChildRef? ==> place.p in m
  {
    if place.RootRef? then m else PutChild(m, place.p, place.d, x)
  }

  function PutParentIf(m: Mem, x: Ptr, p: Ptr): Mem
    requires x != NULL ==> x in m
  {
    if x == NULL then m else PutParent(m, x, p)
  }

  /** Lines 199-208: the predecessor is the left child. */
  function NearSwap(m: Mem, curr: Ptr, pred: Ptr, place: Place, parent: Ptr): Mem
    requires curr in m && pred in m && (m[pred].left != NULL ==> m[pred].left in m)
      && (place.ChildRef? ==> place.p in m)
  {
    var m1 := PutParent(PutParent(PutLink(m, place, pred), pred, parent), curr, pred);
    var tmp := m[pred].left;
    PutParentIf(PutChild(PutChild(m1, pred, Left, curr), curr, Left, tmp), tmp, curr)
  }

  /** Lines 211-227: the predecessor is further down, its parent's right child. */
  function FarSwap(m: Mem, curr: Ptr, pred: Ptr, place: Place, parent: Ptr, pp: Ptr): Mem
    requires curr in m && pred in m && pp in m && m[curr].left in m
    requires (m[pred].left != NULL ==> m[pred].left in m) && (place.ChildRef? ==> place.p in m)
  {
    var m1 := PutParent(PutParent(m, curr, m[pred].parent), pred, parent);
    var m2 := PutChild(PutLink(m1, place, pred), pp, Right, curr);
    var tmp := m[curr].left;
    var m3 := PutChild(PutChild(m2, curr, Left, m[pred].left), pred, Left, tmp);
    PutParent(PutParentIf(m3, m[pred].left, curr), tmp, pred)
  }

  /** Lines 231-236. */
  function RightSwap(m: Mem, curr: Ptr, pred: Ptr): Mem
    requires curr in m && pred in m && (m[curr].right != NULL ==> m[curr].right in m)
  {
    var tmp := m[curr].right;
    PutParentIf(PutChild(PutChild(m, curr, Right, NULL), pred, Right, tmp), tmp, pred)
  }

  /** Lines 196-236, without the write to the root cell. */
  function SwapMem(m: Mem, a: Neighbours, place: Place, parent: Ptr): Mem
    requires PtrsOk(m, a, place)
  {
    var m0 := SwapColours(m, a.pred, a.curr);
    var m1 := if a.l == a.pred then NearSwap(m0, a.curr, a.pred, place, parent)
              else FarSwap(m0, a.curr, a.pred, place, parent, a.pp);
    RightSwap(m1, a.curr, a.pred)
  }

  /** The record at `x` after the swap. */
  function SwapAt(m: Mem, a: Neighbours, place: Place, parent: Ptr, x: Ptr): RbNode
    requires PtrsOk(m, a, place) && x in m
  {
    var near := a.l == a.pred;
    if x == a.curr then
      m[x].(left := a.tl, right := NULL, parent := if near then a.pred else a.pp, red := m[a.pred].red)
    else if x == a.pred then
      m[x].(left := if near then a.curr else a.l, right := a.r, parent := parent, red := m[a.curr].red)
    else if place.ChildRef? && x == place.p then m[x].WithChild(place.d, a.pred)
    else
      m[x].(right := if !near && x == a.pp then a.curr else m[x].right,
            parent := if !near && x == a.l then a.pred
                      else if a.tl != NULL && x == a.tl then a.curr
                      else if x == a.r then a.pred
                      else m[x].parent)
  }

  /** The record at `x` after lines 199-208 or 211-227. */
  function LeftAt(m: Mem, a: Neighbours, place: Place, parent: Ptr, x: Ptr): RbNode
    requires PtrsOk(m, a, place) && x in m
  {
    var near := a.l == a.pred;
    if x == a.curr then m[x].(left := a.tl, parent := if near then a.pred else a.pp)
    else if x == a.pred then m[x].(left := if near then a.curr else a.l, parent := parent)
    else if place.ChildRef? && x == place.p then m[x].WithChild(place.d, a.pred)
    else
      m[x].(right := if !near && x == a.pp then a.curr else m[x].right,
            parent := if !near && x == a.l then a.pred
                      else if a.tl != NULL && x == a.tl then a.curr
                      else m[x].parent)
  }

  lemma NearSwapAt(m: Mem, a: Neighbours, place: Place, parent: Ptr, x: Ptr)
    requires PtrsOk(m, a, place) && a.l == a.pred && x in m
    ensures NearSwap(m, a.curr, a.pred, place, parent).Keys == m.Keys
    ensures NearSwap(m, a.curr, a.pred, place, parent)[x] == LeftAt(m, a, place, parent, x)
  {
  }

  lemma FarSwapAt(m: Mem, a: Neighbours, place: Place, parent: Ptr, x: Ptr)
    requires PtrsOk(m, a, place) && a.l != a.pred && x in m
    ensures FarSwap(m, a.curr, a.pred, place, parent, a.pp).Keys == m.Keys
    ensures FarSwap(m, a.curr, a.pred, place, parent, a.pp)[x] == LeftAt(m, a, place, parent, x)
  {
  }

  lemma RightSwapAt(m: Mem, curr: Ptr, pred: Ptr, x: Ptr)
    requires curr in m && pred in m && curr != pred && m[curr].right in m && m[curr].right != NULL
    requires m[curr].right != curr && m[curr].right != pred && x in m
    ensures RightSwap(m, curr, pred).Keys == m.Keys
    ensures RightSwap(m, curr, pred)[x] ==
      if x == curr then m[x].(right := NULL)
      else if x == pred then m[x].(right := m[curr].right)
      else if x == m[curr].right then m[x].(parent := pred)
      else m[x]
  {
  }

  lemma SwapMemAt(m: Mem, a: Neighbours, place: Place, parent: Ptr, x: Ptr)
    requires PtrsOk(m, a, place) && x in m
    ensures SwapMem(m, a, place, parent).Keys == m.Keys
    ensures SwapMem(m, a, place, parent)[x] == SwapAt(m, a, place, parent, x)
  {
    var m0 := SwapColours(m, a.pred, a.curr);
    assert PtrsOk(m0, a, place);
    var m1 := if a.l == a.pred then NearSwap(m0, a.curr, a.pred, place, parent)
              else FarSwap(m0, a.curr, a.pred, place, parent, a.pp);
    forall y | y in {x, a.curr}
      ensures m1.Keys == m.Keys && m1[y] == LeftAt(m0, a, place, parent, y)
    {
      if a.l == a.pred {
        NearSwapAt(m0, a, place, parent, y);
      } else {
        FarSwapAt(m0, a, place, parent, y);
      }
    }
    RightSwapAt(m1, a.curr, a.pred, x);
  }

  // ---------- the swap represents `Swapped` ----------

  predicate TwoChildren(t: Shape) { t.Node? && t.left.Node? && t.right.Node? }

  function NeighboursOf(t: Shape): Neighbours
    requires TwoChildren(t)
  {
    var last := LastOf(t.left);
    Ptrs(t.n.at, last.n.at, t.left.n.at, t.right.n.at, RootOf(last.left), LastParent(t.left, t.n.at))
  }

  lemma {:induction false} LastCell(l: Shape, q: Ptr)
    requires l.Node? && Distinct(l) && q !in Nodes(l)
    ensures
      var last := LastOf(l);
      && last.n.at in Nodes(l)
      && CellAt(l, q, last.n.at) == Cell(RootOf(last.left), NULL, LastParent(l, q), last.red, last.n.fd)
      && LastParent(l, q) != last.n.at
      && (LastParent(l, q) == q <==> last == l)
      && (last != l ==> LastParent(l, q) in Nodes(l) && last.n.at != l.n.at)
      && (last.left.Node? ==>
            last.left.n.at in Nodes(l) && last.left.n.at != l.n.at
            && last.left.n.at != LastParent(l, q) && last.left.n.at != last.n.at)
  {
    if l.right.Nil? {
      assert l.left.Node? ==> l.left.n.at in Nodes(l.left);
    } else {
      LastCell(l.right, l.n.at);
    }
  }

  lemma NeighboursReal(m: Mem, root: Ptr, c: Ctx, t: Shape)
    requires Rep(m, root, c, t) && TwoChildren(t)
    ensures PtrsOk(m, NeighboursOf(t), PlaceOf(c))
  {
    var l, r, a := t.left, t.right, NeighboursOf(t);
    LastCell(l, t.n.at);
    assert t.n.at in Nodes(t) && l.n.at in Nodes(l) && r.n.at in Nodes(r);
    assert CellAt(t, ParentOf(c), a.pred) == CellAt(l, t.n.at, a.pred);
    assert {a.pred, a.l} <= Nodes(l) && Nodes(l) <= Nodes(t) && Nodes(r) <= Nodes(t);
    assert a.tl != NULL ==> a.tl in Nodes(l);
    assert a.pp == t.n.at || a.pp in Nodes(l);
    if c.Up? {
      CtxFacts(m, root, c, t);
    }
  }

  lemma SwapHolds(m: Mem, t: Shape, p: Ptr, place: Place, x: Ptr)
    requires TwoChildren(t) && Distinct(t) && Holds(m, t, p) && PtrsOk(m, NeighboursOf(t), place)
    requires place.ChildRef? ==> place.p !in Nodes(t)
    requires x in Nodes(t)
    ensures x in Nodes(Swapped(t)) && CellOf(SwapAt(m, NeighboursOf(t), place, p, x)) == CellAt(Swapped(t), p, x)
  {
    var l, r := t.left, t.right;
    SwappedCell(t, p, x);
    LastCell(l, t.n.at);
    assert CellOf(m[x]) == CellAt(t, p, x);
    assert t.n.at in Nodes(t) && CellOf(m[t.n.at]) == CellAt(t, p, t.n.at);
    var pred := LastOf(l).n.at;
    assert pred in Nodes(t) && CellOf(m[pred]) == CellAt(t, p, pred) == CellAt(l, t.n.at, pred);
    assert r.n.at in Nodes(r) && l.n.at in Nodes(l);
    assert l.right.Nil? <==> LastOf(l) == l by {
      if l.right.Node? {
        LastCell(l.right, l.n.at);
      }
    }
  }

  /** After the swap memory holds the same tree with the two nodes exchanged, whichever branch ran. */
  lemma SwapRep(m: Mem, root: Ptr, c: Ctx, t: Shape)
    requires Rep(m, root, c, t) && TwoChildren(t)
    ensures PtrsOk(m, NeighboursOf(t), PlaceOf(c))
    ensures
      var m' := SwapMem(m, NeighboursOf(t), PlaceOf(c), ParentOf(c));
      Rep(m', if c.Top? then LastOf(t.left).n.at else root, c, Swapped(t)) && SamePayload(m, m')
  {
    NeighboursReal(m, root, c, t);
    SwappedDistinct(t);
    var a, place, p := NeighboursOf(t), PlaceOf(c), ParentOf(c);
    var m' := SwapMem(m, a, place, p);
    forall x | x in m
      ensures m'.Keys == m.Keys && m'[x] == SwapAt(m, a, place, p, x)
    {
      SwapMemAt(m, a, place, p, x);
    }
    SwapTreeHolds(m, m', c, t);
    SwapCtxHolds(m, m', root, c, t);
  }

  lemma SwapTreeHolds(m: Mem, m': Mem, c: Ctx, t: Shape)
    requires DistinctAt(c, t) && Holds(m, t, ParentOf(c)) && TwoChildren(t)
    requires PtrsOk(m, NeighboursOf(t), PlaceOf(c)) && m'.Keys == m.Keys
    requires forall x :: x in m ==> m'[x] == SwapAt(m, NeighboursOf(t), PlaceOf(c), ParentOf(c), x)
    ensures Holds(m', Swapped(t), ParentOf(c)) && SamePayload(m, m')
  {
    SwappedDistinct(t);
    assert c.Up? ==> c.n.at in CtxNodes(c);
    forall x | x in Nodes(t)
      ensures x in m' && CellOf(m'[x]) == CellAt(Swapped(t), ParentOf(c), x)
    {
      SwapHolds(m, t, ParentOf(c), PlaceOf(c), x);
    }
  }

  lemma SwapCtxHolds(m: Mem, m': Mem, root: Ptr, c: Ctx, t: Shape)
    requires Rep(m, root, c, t) && TwoChildren(t) && PtrsOk(m, NeighboursOf(t), PlaceOf(c)) && m'.Keys == m.Keys
    requires forall x :: x in m ==> m'[x] == SwapAt(m, NeighboursOf(t), PlaceOf(c), ParentOf(c), x)
    ensures HoldsCtx(m', c, LastOf(t.left).n.at)
  {
    var a := NeighboursOf(t);
    LastCell(t.left, t.n.at);
    assert t.right.n.at in Nodes(t.right) && t.left.n.at in Nodes(t.left);
    assert {a.curr, a.pred, a.l, a.r} <= Nodes(t) && (a.tl != NULL ==> a.tl in Nodes(t)) && a.pp in Nodes(t);
    if c.Up? {
      CtxFacts(m, root, c, t);
    }
    HoleFilled(m, m', c, t.n.at, a.pred);
  }
}
