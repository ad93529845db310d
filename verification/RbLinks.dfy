/** How node records in memory represent a tree, and the pointer operations rb_rotate, rb_probe and
    rb_ref_to_this (src/rbtree.c). */
module RbLinks {
  import opened RbShape

  /** rb_place: the address of a link, either the root cell or a child field. */
  datatype Place = RootRef | ChildRef(p: Ptr, d: Dir)

  function PlaceOf(c: Ctx): Place { if c.Top? then RootRef else ChildRef(c.n.at, c.d) }

  // ---------- what each node record must hold ----------

  /** The tree-related fields of one node. */
  datatype Cell = Cell(left: Ptr, right: Ptr, parent: Ptr, red: bool, fd: int)

  function CellOf(n: RbNode): Cell { Cell(n.left, n.right, n.parent, n.red, n.fd) }

  function MkCell(d: Dir, a: Ptr, b: Ptr, p: Ptr, red: bool, fd: int): Cell {
    if d == Left then Cell(a, b, p, red, fd) else Cell(b, a, p, red, fd)
  }

  /** What the node at `x` holds when it belongs to `t` and the parent of the root of `t` is `p`. */
  ghost function CellAt(t: Shape, p: Ptr, x: Ptr): Cell
    requires x in Nodes(t)
  {
    if x == t.n.at then Cell(RootOf(t.left), RootOf(t.right), p, t.red, t.n.fd)
    else if x in Nodes(t.left) then CellAt(t.left, t.n.at, x)
    else CellAt(t.right, t.n.at, x)
  }

  /** What the node at `x` holds when it belongs to the context `c` and `hole` fills the open position. */
  ghost function CtxCellAt(c: Ctx, hole: Ptr, x: Ptr): Cell
    requires x in CtxNodes(c)
  {
    if x == c.n.at then MkCell(c.d, hole, RootOf(c.sib), ParentOf(c.up), c.red, c.n.fd)
    else if x in Nodes(c.sib) then CellAt(c.sib, c.n.at, x)
    else CtxCellAt(c.up, c.n.at, x)
  }

  function RootAt(c: Ctx, hole: Ptr): Ptr {
    if c.Top? then hole else RootAt(c.up, c.n.at)
  }

  ghost predicate Holds(m: Mem, t: Shape, p: Ptr) {
    forall x :: x in Nodes(t) ==> x != NULL && x in m && CellOf(m[x]) == CellAt(t, p, x)
  }

  ghost predicate HoldsCtx(m: Mem, c: Ctx, hole: Ptr) {
    forall x :: x in CtxNodes(c) ==> x != NULL && x in m && CellOf(m[x]) == CtxCellAt(c, hole, x)
  }

  /** Memory holds the tree Plug(c, t), seen from the position of `t`: child links, parent links,
      colours and descriptors of every node are those of the tree. */
  ghost predicate Rep(m: Mem, root: Ptr, c: Ctx, t: Shape) {
    DistinctAt(c, t) && Holds(m, t, ParentOf(c)) && HoldsCtx(m, c, RootOf(t)) && root == RootAt(c, RootOf(t))
  }

  /** Tree operations rewrite links and colours only: no node is lost and each keeps its payload. */
  ghost predicate SamePayload(m: Mem, m': Mem) {
    m'.Keys == m.Keys
    && forall x :: x in m ==> m'[x].fd == m[x].fd && m'[x].pollIdx == m[x].pollIdx && m'[x].slots == m[x].slots
  }

  lemma RepUp(m: Mem, root: Ptr, c: Ctx, t: Shape)
    requires Rep(m, root, c, t) && c.Up?
    ensures Rep(m, root, c.up, Mk(c.d, t, c.n, c.red, c.sib))
  {
  }

  lemma RepDown(m: Mem, root: Ptr, c: Ctx, t: Shape, d: Dir)
    requires Rep(m, root, c, t) && t.Node?
    ensures Rep(m, root, Up(d, t.n, t.red, Sub(t, Flip(d)), c), Sub(t, d))
  {
  }

  lemma {:induction false} RepWhole(m: Mem, root: Ptr, c: Ctx, t: Shape)
    requires Rep(m, root, c, t)
    ensures Rep(m, root, Top, Plug(c, t))
    decreases c
  {
    if c.Up? {
      RepUp(m, root, c, t);
      RepWhole(m, root, c.up, Mk(c.d, t, c.n, c.red, c.sib));
    }
  }

  // ---------- rotation ----------

  /** The tree after rotating `t` towards `dir`. */
  function Rotated(t: Shape, dir: Dir): Shape
    requires t.Node? && Sub(t, Flip(dir)).Node?
  {
    var child := Sub(t, Flip(dir));
    Mk(dir, Mk(dir, Sub(t, dir), t.n, t.red, Sub(child, dir)), child.n, child.red, Sub(child, Flip(dir)))
  }

  lemma RotatedDistinct(t: Shape, dir: Dir)
    requires t.Node? && Sub(t, Flip(dir)).Node? && Distinct(t)
    ensures Distinct(Rotated(t, dir)) && Nodes(Rotated(t, dir)) == Nodes(t)
  {
  }

  /** Rotation rewrites the cells of three nodes and leaves all others alone. */
  lemma RotatedCell(t: Shape, dir: Dir, p: Ptr, x: Ptr)
    requires t.Node? && Sub(t, Flip(dir)).Node? && Distinct(t) && x in Nodes(t)
    ensures x in Nodes(Rotated(t, dir))
    ensures
      var ct := Sub(t, Flip(dir));
      var gt := Sub(ct, dir);
      CellAt(Rotated(t, dir), p, x) ==
        if x == t.n.at then MkCell(dir, RootOf(Sub(t, dir)), RootOf(gt), ct.n.at, t.red, t.n.fd)
        else if x == ct.n.at then MkCell(dir, t.n.at, RootOf(Sub(ct, Flip(dir))), p, ct.red, ct.n.fd)
        else if gt.Node? && x == gt.n.at then CellAt(t, p, x).(parent := t.n.at)
        else CellAt(t, p, x)
  {
    var ct := Sub(t, Flip(dir));
    var gt := Sub(ct, dir);
    assert Distinct(ct) && Distinct(gt);
    assert Nodes(ct) == Nodes(gt) + {ct.n.at} + Nodes(Sub(ct, Flip(dir)));
    var inner := Mk(dir, Sub(t, dir), t.n, t.red, gt);
    assert Nodes(inner) == Nodes(Sub(t, dir)) + {t.n.at} + Nodes(gt);
    if x in Nodes(gt) {
      assert CellAt(t, p, x) == CellAt(gt, ct.n.at, x);
      assert CellAt(Rotated(t, dir), p, x) == CellAt(gt, t.n.at, x);
    } else if x in Nodes(Sub(t, dir)) {
      assert CellAt(Rotated(t, dir), p, x) == CellAt(inner, ct.n.at, x) == CellAt(t, p, x);
    }
  }

  lemma RotatedHolds(m: Mem, m': Mem, t: Shape, dir: Dir, p: Ptr)
    requires t.Node? && Sub(t, Flip(dir)).Node? && Distinct(t) && Holds(m, t, p) && SamePayload(m, m')
    requires
      var ct := Sub(t, Flip(dir));
      var gt := Sub(ct, dir);
      && t.n.at in m && ct.n.at in m
      && CellOf(m'[t.n.at]) == MkCell(dir, RootOf(Sub(t, dir)), RootOf(gt), ct.n.at, t.red, t.n.fd)
      && CellOf(m'[ct.n.at]) == MkCell(dir, t.n.at, RootOf(Sub(ct, Flip(dir))), p, ct.red, ct.n.fd)
      && (gt.Node? ==> gt.n.at in m && CellOf(m'[gt.n.at]) == CellOf(m[gt.n.at]).(parent := t.n.at))
      && forall x :: x in Nodes(t) && x in m && x != t.n.at && x != ct.n.at && x != RootOf(gt) ==> m'[x] == m[x]
    ensures Holds(m', Rotated(t, dir), p)
  {
    RotatedDistinct(t, dir);
    forall x | x in Nodes(t)
      ensures x in m' && CellOf(m'[x]) == CellAt(Rotated(t, dir), p, x)
    {
      RotatedCell(t, dir, p, x);
    }
  }

  /** The pointers that rb_rotate follows, read off the tree. */
  lemma RotateFacts(m: Mem, root: Ptr, c: Ctx, t: Shape, dir: Dir)
    requires Rep(m, root, c, t) && t.Node? && Sub(t, Flip(dir)).Node?
    ensures
      var ct := Sub(t, Flip(dir));
      var gt := Sub(ct, dir);
      && t.n.at in Nodes(t) && ct.n.at in Nodes(t) && t.n.at in m && ct.n.at in m && t.n.at != ct.n.at
      && CellOf(m[t.n.at]) == MkCell(dir, RootOf(Sub(t, dir)), ct.n.at, ParentOf(c), t.red, t.n.fd)
      && CellOf(m[ct.n.at]) == MkCell(dir, RootOf(gt), RootOf(Sub(ct, Flip(dir))), t.n.at, ct.red, ct.n.fd)
      && (gt.Node? ==> gt.n.at in m && gt.n.at in Nodes(t) && gt.n.at != t.n.at && gt.n.at != ct.n.at)
      && t.n.at != NULL && ct.n.at != NULL && (gt.Node? ==> gt.n.at != NULL)
  {
    var ct := Sub(t, Flip(dir));
    var gt := Sub(ct, dir);
    assert Distinct(ct) && ct.n.at in Nodes(ct);
    assert CellAt(t, ParentOf(c), ct.n.at) == CellAt(ct, t.n.at, ct.n.at);
    assert gt.Node? ==> gt.n.at in Nodes(gt) && gt.n.at in Nodes(ct);
  }

  lemma CtxFacts(m: Mem, root: Ptr, c: Ctx, t: Shape)
    requires Rep(m, root, c, t) && c.Up?
    ensures c.n.at in CtxNodes(c) && c.n.at !in Nodes(t) && c.n.at in m && c.n.at != NULL
    ensures CellOf(m[c.n.at]) == MkCell(c.d, RootOf(t), RootOf(c.sib), ParentOf(c.up), c.red, c.n.fd)
    ensures t.Node? ==> RootOf(c.sib) != t.n.at && t.n.at in m && m[t.n.at].parent == c.n.at
  {
  }

  /** Replacing what fills the hole touches one child field of the context. */
  lemma HoleFilled(m: Mem, m': Mem, c: Ctx, h: Ptr, h': Ptr)
    requires HoldsCtx(m, c, h) && m'.Keys == m.Keys
    requires c.Up? ==> c.n.at in m && CellOf(m'[c.n.at]) == CellOf(m[c.n.at].WithChild(c.d, h'))
    requires forall x :: x in CtxNodes(c) && x in m && (c.Up? ==> x != c.n.at) ==> m'[x] == m[x]
    ensures HoldsCtx(m', c, h')
  {
    if c.Up? {
      assert CellOf(m[c.n.at]) == CtxCellAt(c, h, c.n.at);
    }
  }
}
