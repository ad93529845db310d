/** The red-black tree of file descriptors: rb_rotate, rb_probe, rb_ref_to_this (src/rbtree.c). */
module RbTrees {
  import opened RbShape
  import opened RbLinks

  function PutParent(m: Mem, x: Ptr, p: Ptr): Mem
    requires x in m
  {
    m[x := m[x].(parent := p)]
  }

  function PutRed(m: Mem, x: Ptr, red: bool): Mem
    requires x in m
  {
    m[x := m[x].(red := red)]
  }

  /** swap_colors */
  function SwapColours(m: Mem, a: Ptr, b: Ptr): Mem
    requires a in m && b in m
  {
    PutRed(PutRed(m, a, m[b].red), b, m[a].red)
  }

  function PutChild(m: Mem, x: Ptr, d: Dir, c: Ptr): Mem
    requires x in m
  {
    m[x := m[x].WithChild(d, c)]
  }

  /** The link that leads to `node`, found through its parent pointer. */
  function LinkOf(m: Mem, node: Ptr): Place
    requires node in m && (m[node].parent != NULL ==> m[node].parent in m)
  {
    var p := m[node].parent;
    if p == NULL then RootRef else ChildRef(p, if m[p].right == node then Right else Left)
  }

  /** The pointers involved in a rotation exist and are different. */
  predicate CanTurn(m: Mem, node: Ptr, dir: Dir) {
    && node in m && node != NULL && m[node].Child(Flip(dir)) in m && m[node].Child(Flip(dir)) != NULL
    && var child := m[node].Child(Flip(dir));
    && var g := m[child].Child(dir);
    && var p := m[node].parent;
    && child != node && p != node && p != child && g != node && g != child
    && (p != NULL ==> p in m && p != g) && (g != NULL ==> g in m)
  }

  /** The memory after the assignments of rb_rotate. */
  function Turned(m: Mem, node: Ptr, dir: Dir): Mem
    requires CanTurn(m, node, dir)
  {
    var parent := m[node].parent;
    var child := m[node].Child(Flip(dir));
    var grandchild := m[child].Child(dir);
    var link := LinkOf(m, node);
    var m1 := PutParent(m, child, parent);
    var m2 := if parent == NULL then m1 else PutChild(m1, link.p, link.d, child);
    var m3 := PutChild(m2, node, Flip(dir), grandchild);
    var m4 := if grandchild == NULL then m3 else PutParent(m3, grandchild, node);
    PutParent(PutChild(m4, child, dir, node), node, child)
  }

  lemma TurnedAt(m: Mem, node: Ptr, dir: Dir)
    requires CanTurn(m, node, dir)
    ensures
      var child := m[node].Child(Flip(dir));
      var g := m[child].Child(dir);
      var p := m[node].parent;
      var m' := Turned(m, node, dir);
      && m'.Keys == m.Keys
      && m'[node] == m[node].WithChild(Flip(dir), g).(parent := child)
      && m'[child] == m[child].WithChild(dir, node).(parent := p)
      && (g != NULL ==> m'[g] == m[g].(parent := node))
      && (p != NULL ==> m'[p] == m[p].WithChild(LinkOf(m, node).d, child))
      && forall x :: x in m && x != node && x != child && (g != NULL ==> x != g) && (p != NULL ==> x != p) ==>
        m'[x] == m[x]
  {
  }

  lemma CanTurnHere(m: Mem, root: Ptr, c: Ctx, t: Shape, dir: Dir)
    requires Rep(m, root, c, t) && t.Node? && Sub(t, Flip(dir)).Node?
    ensures CanTurn(m, t.n.at, dir) && (c.Up? ==> LinkOf(m, t.n.at) == PlaceOf(c))
  {
    RotateFacts(m, root, c, t, dir);
    if c.Up? {
      CtxFacts(m, root, c, t);
    }
  }

  lemma TurnedKeeps(m: Mem, node: Ptr, dir: Dir)
    requires CanTurn(m, node, dir)
    ensures SamePayload(m, Turned(m, node, dir))
  {
    hide Turned;
    TurnedAt(m, node, dir);
  }

  lemma TurnRep(m: Mem, root: Ptr, c: Ctx, t: Shape, dir: Dir)
    requires Rep(m, root, c, t) && t.Node? && Sub(t, Flip(dir)).Node?
    ensures CanTurn(m, t.n.at, dir) && SamePayload(m, Turned(m, t.n.at, dir))
    ensures Rep(Turned(m, t.n.at, dir), if c.Top? then RootOf(Sub(t, Flip(dir))) else root, c, Rotated(t, dir))
  {
    hide Turned, CanTurn, CellAt, CtxCellAt, Distinct, SamePayload;
    CanTurnHere(m, root, c, t, dir);
    TurnedKeeps(m, t.n.at, dir);
    TurnedAt(m, t.n.at, dir);
    RotateFacts(m, root, c, t, dir);
    if c.Up? {
      CtxFacts(m, root, c, t);
    }
    RotatedDistinct(t, dir);
    RotatedHolds(m, Turned(m, t.n.at, dir), t, dir, ParentOf(c));
    HoleFilled(m, Turned(m, t.n.at, dir), c, t.n.at, RootOf(Sub(t, Flip(dir))));
  }

  // ---------- colours ----------

  /** Replacing the subtree on side `d`. */
  function WithSub(t: Shape, d: Dir, s: Shape): Shape
    requires t.Node?
  {
    Mk(d, s, t.n, t.red, Sub(t, Flip(d)))
  }

  lemma Painted(m: Mem, root: Ptr, c: Ctx, t: Shape, red: bool)
    requires Rep(m, root, c, t) && t.Node?
    ensures t.n.at in m && t.n.at != NULL && t.n.at in Nodes(t)
    ensures Rep(PutRed(m, t.n.at, red), root, c, t.(red := red))
    ensures SamePayload(m, PutRed(m, t.n.at, red))
  {
    assert t.n.at in Nodes(t);
    assert Nodes(t.(red := red)) == Nodes(t);
  }

  lemma PaintedSub(m: Mem, root: Ptr, c: Ctx, t: Shape, d: Dir, red: bool)
    requires Rep(m, root, c, t) && t.Node? && Sub(t, d).Node?
    ensures Sub(t, d).n.at in m && Sub(t, d).n.at != NULL
    ensures Rep(PutRed(m, Sub(t, d).n.at, red), root, c, WithSub(t, d, Sub(t, d).(red := red)))
    ensures SamePayload(m, PutRed(m, Sub(t, d).n.at, red))
  {
    var c1 := Up(d, t.n, t.red, Sub(t, Flip(d)), c);
    RepDown(m, root, c, t, d);
    Painted(m, root, c1, Sub(t, d), red);
    RepUp(PutRed(m, Sub(t, d).n.at, red), root, c1, Sub(t, d).(red := red));
  }

  // ---------- search ----------

  /** Where a search for `fd` that starts at `t` ends. */
  function ProbeTo(c: Ctx, t: Shape, fd: int): (Ctx, Shape)
    decreases t
  {
    if t.Nil? || t.n.fd == fd then (c, t)
    else
      var d := if fd > t.n.fd then Right else Left;
      ProbeTo(Up(d, t.n, t.red, Sub(t, Flip(d)), c), Sub(t, d), fd)
  }

  /** Everything before the hole is smaller than `fd`, everything after it is larger. */
  ghost predicate Brackets(c: Ctx, fd: int) {
    (forall x :: x in Before(c) ==> x.fd < fd) && (forall x :: x in After(c) ==> fd < x.fd)
  }

  /** A node separates its subtrees in a sorted sequence. */
  lemma SortedAround(a: seq<Id>, l: seq<Id>, n: Id, r: seq<Id>, b: seq<Id>)
    requires Sorted(a + (l + [n] + r) + b)
    ensures forall x :: x in l ==> x.fd < n.fd
    ensures forall x :: x in r ==> n.fd < x.fd
  {
    var whole := a + (l + [n] + r) + b;
    var i := |a| + |l|;
    assert whole[i] == n;
    forall x | x in l
      ensures x.fd < n.fd
    {
      var k :| 0 <= k < |l| && l[k] == x;
      assert whole[|a| + k] == x;
    }
    forall x | x in r
      ensures n.fd < x.fd
    {
      var k :| 0 <= k < |r| && r[k] == x;
      assert whole[i + 1 + k] == x;
    }
  }

  lemma InOrderElems(t: Shape)
    requires t.Node?
    ensures forall x :: x in InOrder(t) <==> x in InOrder(t.left) || x == t.n || x in InOrder(t.right)
  {
  }

  /** In a sorted tree the search ends at the node for `fd`, or at the one link where a node for `fd`
      keeps the order. */
  lemma {:induction false} ProbeFinds(c: Ctx, t: Shape, fd: int)
    requires Sorted(Before(c) + InOrder(t) + After(c)) && Brackets(c, fd)
    ensures
      var (c', t') := ProbeTo(c, t, fd);
      Plug(c', t') == Plug(c, t) && Brackets(c', fd) && (t'.Node? ==> t'.n.fd == fd)
      && (t'.Node? <==> exists x :: x in InOrder(t) && x.fd == fd)
    decreases t
  {
    if t.Node? {
      SortedAround(Before(c), InOrder(t.left), t.n, InOrder(t.right), After(c));
      InOrderElems(t);
      if t.n.fd != fd {
        var d := if fd > t.n.fd then Right else Left;
        var c1 := Up(d, t.n, t.red, Sub(t, Flip(d)), c);
        SpineUp(c1, Sub(t, d));
        assert Mk(d, Sub(t, d), t.n, t.red, Sub(t, Flip(d))) == t;
        ProbeFinds(c1, Sub(t, d), fd);
      }
    }
  }

  /** A search from the root gets to every hole that brackets `fd`. */
  lemma {:induction false} ProbeReaches(c: Ctx, t: Shape, fd: int)
    requires Brackets(c, fd)
    ensures ProbeTo(Top, Plug(c, t), fd) == ProbeTo(c, t, fd)
    decreases c
  {
    if c.Up? {
      var u := Mk(c.d, t, c.n, c.red, c.sib);
      assert forall x :: x in Before(c.up) ==> x in Before(c);
      assert forall x :: x in After(c.up) ==> x in After(c);
      ProbeReaches(c.up, u, fd);
      assert c.d == Right ==> c.n in Before(c);
      assert c.d == Left ==> c.n in After(c);
      assert ProbeTo(c.up, u, fd) == ProbeTo(c, t, fd);
    }
  }

  /** There is only one place for `fd`. */
  lemma PlaceIsUnique(c1: Ctx, c2: Ctx, fd: int)
    requires Plug(c1, Nil) == Plug(c2, Nil) && Brackets(c1, fd) && Brackets(c2, fd)
    ensures c1 == c2
  {
    ProbeReaches(c1, Nil, fd);
    ProbeReaches(c2, Nil, fd);
  }

  function Pow2(n: nat): nat { if n == 0 then 1 else 2 * Pow2(n - 1) }

  /** How many nodes a search looks at. */
  function Visits(c: Ctx, t: Shape, fd: int): nat
  {
    var (c', t') := ProbeTo(c, t, fd);
    var k := Depth(c') - Depth(c) + if t'.Node? then 1 else 0;
    if k < 0 then 0 else k
  }

  lemma {:induction false} VisitsBound(c: Ctx, t: Shape, fd: int, h: int)
    requires RB(t, h)
    ensures
      var (c', t') := ProbeTo(c, t, fd);
      Depth(c) <= Depth(c') <= Depth(c) + 2 * h + (if IsRed(t) then 1 else 0) - if t'.Node? then 1 else 0
    decreases t
  {
    RBNonNegative(t, h);
    if t.Node? {
      RBNonNegative(t.left, if t.red then h else h - 1);
      if t.n.fd != fd {
        var d := if fd > t.n.fd then Right else Left;
        VisitsBound(Up(d, t.n, t.red, Sub(t, Flip(d)), c), Sub(t, d), fd, if t.red then h else h - 1);
      }
    }
  }

  lemma {:induction false} SizeBound(t: Shape, h: int)
    requires RB(t, h)
    ensures h >= 0 && Pow2(h) <= |InOrder(t)| + 1
  {
    RBNonNegative(t, h);
    if t.Node? {
      SizeBound(t.left, if t.red then h else h - 1);
      SizeBound(t.right, if t.red then h else h - 1);
    }
  }

  lemma {:induction false} Pow2Monotone(a: nat, b: nat)
    requires a <= b
    ensures 1 <= Pow2(a) <= Pow2(b)
  {
    if a < b { Pow2Monotone(a, b - 1); } else if 0 < a { Pow2Monotone(a - 1, a - 1); }
  }

  lemma {:induction false} Pow2Square(h: nat)
    ensures Pow2(2 * h) == Pow2(h) * Pow2(h)
  {
    if h > 0 {
      Pow2Square(h - 1);
      assert Pow2(2 * h) == 4 * Pow2(2 * (h - 1));
    }
  }

  lemma SquareMonotone(a: nat, b: nat)
    requires a <= b
    ensures a * a <= b * b
  {
  }

  /** A search in a balanced tree of n nodes looks at no more than 2 * log2(n + 1) of them. */
  lemma ProbeIsLogarithmic(t: Shape, fd: int)
    requires Balanced(t)
    ensures Pow2(Visits(Top, t, fd)) <= (|InOrder(t)| + 1) * (|InOrder(t)| + 1)
  {
    var h, n1 := BlackHeight(t), |InOrder(t)| + 1;
    VisitsBound(Top, t, fd, h);
    SizeBound(t, h);
    Pow2Monotone(Visits(Top, t, fd), 2 * h);
    Pow2Square(h);
    SquareMonotone(Pow2(h), n1);
  }

  lemma LinkHolds(m: Mem, root: Ptr, c: Ctx, t: Shape)
    requires Rep(m, root, c, t)
    ensures c.Up? ==> c.n.at in m && c.n.at != NULL && m[c.n.at].Child(c.d) == RootOf(t)
    ensures c.Top? ==> root == RootOf(t)
    ensures t.Node? ==> t.n.at in m && t.n.at != NULL && CellOf(m[t.n.at]) == CellAt(t, ParentOf(c), t.n.at)
  {
  }

  /** The node memory together with the cell that root_ref points at. */
  class RbTree {
    var mem: Mem
    var root: Ptr

    constructor ()
      ensures mem == map[] && root == NULL
    {
      mem, root := map[], NULL;
    }

    function Load(place: Place): Ptr
      requires place.ChildRef? ==> place.p in mem
      reads this
    {
      if place.RootRef? then root else mem[place.p].Child(place.d)
    }

    method Store(place: Place, x: Ptr)
      requires place.ChildRef? ==> place.p in mem
      modifies this
      ensures place.RootRef? ==> root == x && mem == old(mem)
      ensures place.ChildRef? ==> root == old(root) && mem == PutChild(old(mem), place.p, place.d, x)
    {
      if place.RootRef? {
        root := x;
      } else {
        mem := PutChild(mem, place.p, place.d, x);
      }
    }

    predicate IsRedAt(x: Ptr)
      requires x != NULL ==> x in mem
      reads this
    {
      x != NULL && mem[x].red
    }

    /** rb_rotate */
    method Rotate(node: Ptr, dir: Dir, ghost c: Ctx, ghost t: Shape)
      requires Rep(mem, root, c, t) && t.Node? && t.n.at == node && Sub(t, Flip(dir)).Node?
      modifies this
      ensures Rep(mem, root, c, Rotated(t, dir)) && SamePayload(old(mem), mem)
    {
      TurnRep(mem, root, c, t, dir);
      var parent := mem[node].parent;
      var pLink := LinkOf(mem, node);
      var child := mem[node].Child(Flip(dir));
      var grandchild := mem[child].Child(dir);

      mem := PutParent(mem, child, parent);
      if pLink.RootRef? {
        root := child;
      } else {
        mem := PutChild(mem, pLink.p, pLink.d, child);
      }

      mem := PutChild(mem, node, Flip(dir), grandchild);
      if grandchild != NULL {
        mem := PutParent(mem, grandchild, node);
      }

      mem := PutChild(mem, child, dir, node);
      mem := PutParent(mem, node, child);
    }

    /** rb_probe.  The out-parent is reset first, so it is the parent of the place found only when the
        search has moved. */
    method Probe(start: Place, fd: int, ghost c0: Ctx, ghost t0: Shape)
      returns (place: Place, parent: Ptr, ghost c: Ctx, ghost t: Shape)
      requires Rep(mem, root, c0, t0) && start == PlaceOf(c0)
      ensures (c, t) == ProbeTo(c0, t0, fd) && Rep(mem, root, c, t)
      ensures place == PlaceOf(c) && (place.ChildRef? ==> place.p in mem) && Load(place) == RootOf(t)
      ensures parent == if t == t0 then NULL else ParentOf(c)
    {
      parent, place := NULL, start;
      c, t := c0, t0;
      LinkHolds(mem, root, c, t);
      while Load(place) != NULL
        invariant Rep(mem, root, c, t) && place == PlaceOf(c) && ProbeTo(c, t, fd) == ProbeTo(c0, t0, fd)
        invariant (place.ChildRef? ==> place.p in mem) && Load(place) == RootOf(t)
        invariant t == t0 || t < t0
        invariant parent == if t == t0 then NULL else ParentOf(c)
        decreases t
      {
        LinkHolds(mem, root, c, t);
        var x := Load(place);
        if mem[x].fd == fd {
          break;
        }
        parent := x;
        place := ChildRef(x, if fd > mem[x].fd then Right else Left);
        RepDown(mem, root, c, t, place.d);
        c, t := Up(place.d, t.n, t.red, Sub(t, Flip(place.d)), c), Sub(t, place.d);
        LinkHolds(mem, root, c, t);
      }
    }

    /** rb_ref_to_this */
    method RefToThis(node: Ptr, ghost c: Ctx, ghost t: Shape) returns (place: Place, parent: Ptr)
      requires Rep(mem, root, c, t) && t.Node? && t.n.at == node
      ensures place == PlaceOf(c) && parent == ParentOf(c)
    {
      LinkHolds(mem, root, c, t);
      if c.Up? {
        CtxFacts(mem, root, c, t);
      }
      parent := mem[node].parent;
      place := LinkOf(mem, node);
    }

    method Paint(x: Ptr, red: bool)
      requires x in mem
      modifies this`mem
      ensures mem == PutRed(old(mem), x, red)
    {
      mem := PutRed(mem, x, red);
    }
  }
}
