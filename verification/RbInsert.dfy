/** fix_insert, rb_insert and the write-back that follows it in reserve_evt_mem
    (src/rbtree.c:90-137, src/iosvc_sched.c:113-123). */
module RbInsertion {
  import opened RbShape
  import opened RbLinks
  import opened RbTrees

  /** The position is a child of a red node whose own parent exists. */
  predicate UnderRed(c: Ctx) { c.Up? && c.red && c.up.Up? }

  /** Grandparent's subtree around the position. */
  function GrandTree(c: Ctx, t: Shape): Shape
    requires UnderRed(c)
  {
    Mk(c.up.d, Mk(c.d, t, c.n, c.red, c.sib), c.up.n, c.up.red, c.up.sib)
  }

  // ---------- red uncle: recolour ----------

  function RecolourShape(c: Ctx, t: Shape): Shape
    requires UnderRed(c)
  {
    Mk(c.up.d, Mk(c.d, t, c.n, false, c.sib), c.up.n, true, Blacken(c.up.sib))
  }

  lemma RecolourBalance(c: Ctx, t: Shape, h: int)
    requires UnderRed(c) && IsRed(c.up.sib) && RB(t, h) && CtxOk(c, h)
    ensures RB(RecolourShape(c, t), h + 1) && CtxOk(c.up.up, h + 1)
  {
  }

  lemma RecolourInOrder(c: Ctx, t: Shape)
    requires UnderRed(c)
    ensures InOrder(RecolourShape(c, t)) == InOrder(GrandTree(c, t))
  {
  }

  /** Memory after set_black(uncle), set_black(parent), set_red(grandparent). */
  function Repainted(m: Mem, parent: Ptr, grandparent: Ptr, uncle: Ptr): Mem
    requires parent in m && grandparent in m && uncle in m
  {
    PutRed(PutRed(PutRed(m, uncle, false), parent, false), grandparent, true)
  }

  lemma RecolourRep(m: Mem, root: Ptr, c: Ctx, t: Shape)
    requires Rep(m, root, c, t) && UnderRed(c) && IsRed(c.up.sib)
    ensures c.n.at in m && c.up.n.at in m && c.up.sib.n.at in m
    ensures Rep(Repainted(m, c.n.at, c.up.n.at, c.up.sib.n.at), root, c.up.up, RecolourShape(c, t))
  {
    var u, g, p := c.up.up, GrandTree(c, t), Mk(c.d, t, c.n, c.red, c.sib);
    RepUp(m, root, c, t);
    RepUp(m, root, c.up, p);
    PaintedSub(m, root, u, g, Flip(c.up.d), false);
    var m1 := PutRed(m, c.up.sib.n.at, false);
    var g1 := WithSub(g, Flip(c.up.d), Blacken(c.up.sib));
    PaintedSub(m1, root, u, g1, c.up.d, false);
    var m2 := PutRed(m1, c.n.at, false);
    Painted(m2, root, u, WithSub(g1, c.up.d, Mk(c.d, t, c.n, false, c.sib)), true);
  }

  lemma RepaintedKeeps(m: Mem, parent: Ptr, grandparent: Ptr, uncle: Ptr)
    requires parent in m && grandparent in m && uncle in m
    ensures SamePayload(m, Repainted(m, parent, grandparent, uncle))
  {
  }

  method Recolour(tree: RbTree, parent: Ptr, grandparent: Ptr, uncle: Ptr, ghost c: Ctx, ghost t: Shape)
    requires Rep(tree.mem, tree.root, c, t) && UnderRed(c) && IsRed(c.up.sib)
    requires parent == c.n.at && grandparent == c.up.n.at && uncle == c.up.sib.n.at
    modifies tree
    ensures Rep(tree.mem, tree.root, c.up.up, RecolourShape(c, t)) && SamePayload(old(tree.mem), tree.mem)
  {
    RecolourRep(tree.mem, tree.root, c, t);
    RepaintedKeeps(tree.mem, parent, grandparent, uncle);
    tree.Paint(uncle, false);
    tree.Paint(parent, false);
    tree.Paint(grandparent, true);
  }

  // ---------- black uncle: rotate ----------

  /** The tree that the rotation branch leaves at the grandparent's position. */
  function RotationShape(c: Ctx, t: Shape): Shape
    requires UnderRed(c) && t.Node?
  {
    var pd := c.up.d;
    if c.d == pd then Mk(pd, t, c.n, false, Mk(pd, c.sib, c.up.n, true, c.up.sib))
    else Mk(pd, Mk(pd, c.sib, c.n, true, Sub(t, pd)), t.n, false, Mk(pd, Sub(t, Flip(pd)), c.up.n, true, c.up.sib))
  }

  lemma RotationBalance(c: Ctx, t: Shape, h: int)
    requires UnderRed(c) && !IsRed(c.up.sib) && IsRed(t) && RB(t, h) && CtxOk(c, h)
    ensures RB(RotationShape(c, t), h + 1) && CtxOk(c.up.up, h + 1) && !IsRed(RotationShape(c, t))
  {
  }

  /** `a` on side `d` of `x`, `b` on the other side. */
  function Around(d: Dir, a: seq<Id>, x: seq<Id>, b: seq<Id>): seq<Id> {
    if d == Left then a + x + b else b + x + a
  }

  lemma MkInOrder(d: Dir, a: Shape, n: Id, red: bool, b: Shape)
    ensures InOrder(Mk(d, a, n, red, b)) == Around(d, InOrder(a), [n], InOrder(b))
  {
  }

  lemma AroundAssociative(d: Dir, a: seq<Id>, x: seq<Id>, b: seq<Id>, y: seq<Id>, c: seq<Id>)
    ensures Around(d, Around(d, a, x, b), y, c) == Around(d, a, x, Around(d, b, y, c))
  {
  }

  lemma RotationInOrder(c: Ctx, t: Shape)
    requires UnderRed(c) && t.Node?
    ensures InOrder(RotationShape(c, t)) == InOrder(GrandTree(c, t))
  {
    var pd, p, g, a, b := c.up.d, [c.n], [c.up.n], InOrder(c.sib), InOrder(c.up.sib);
    MkInOrder(pd, Mk(c.d, t, c.n, c.red, c.sib), c.up.n, c.up.red, c.up.sib);
    MkInOrder(c.d, t, c.n, c.red, c.sib);
    if c.d == pd {
      var r := Mk(pd, c.sib, c.up.n, true, c.up.sib);
      MkInOrder(pd, c.sib, c.up.n, true, c.up.sib);
      MkInOrder(pd, t, c.n, false, r);
      AroundAssociative(pd, InOrder(t), p, a, g, b);
    } else {
      var near, far := InOrder(Sub(t, pd)), InOrder(Sub(t, Flip(pd)));
      var l, r := Mk(pd, c.sib, c.n, true, Sub(t, pd)), Mk(pd, Sub(t, Flip(pd)), c.up.n, true, c.up.sib);
      MkInOrder(pd, Sub(t, pd), t.n, t.red, Sub(t, Flip(pd)));
      MkInOrder(pd, c.sib, c.n, true, Sub(t, pd));
      MkInOrder(pd, Sub(t, Flip(pd)), c.up.n, true, c.up.sib);
      MkInOrder(pd, l, t.n, false, r);
      AroundAssociative(pd, a, p, near, [t.n], far);
      AroundAssociative(pd, Around(pd, a, p, near), [t.n], far, g, b);
      assert Around(c.d, InOrder(t), p, a) == Around(pd, a, p, InOrder(t));
    }
  }

  /** The mixed rotation that precedes the simple one when node and parent lie on different sides. */
  method MixedRotation(tree: RbTree, parent: Ptr, pd: Dir, ghost c: Ctx, ghost t: Shape) returns (ghost p': Shape)
    requires Rep(tree.mem, tree.root, c, t) && UnderRed(c) && t.Node?
    requires parent == c.n.at && pd == c.up.d && c.d != pd
    modifies tree
    ensures p' == Mk(pd, Mk(pd, c.sib, c.n, true, Sub(t, pd)), t.n, t.red, Sub(t, Flip(pd)))
    ensures Rep(tree.mem, tree.root, c.up.up, Mk(pd, p', c.up.n, c.up.red, c.up.sib))
    ensures SamePayload(old(tree.mem), tree.mem)
  {
    ghost var p := Mk(c.d, t, c.n, c.red, c.sib);
    RepUp(tree.mem, tree.root, c, t);
    tree.Rotate(parent, pd, c.up, p);
    p' := Rotated(p, pd);
    RepUp(tree.mem, tree.root, c.up, p');
  }

  /** The simple rotation: the parent takes the grandparent's place. */
  method SimpleRotation(tree: RbTree, parent: Ptr, grandparent: Ptr, pd: Dir, ghost u: Ctx, ghost g: Shape)
    requires Rep(tree.mem, tree.root, u, g) && g.Node? && Sub(g, pd).Node?
    requires grandparent == g.n.at && parent == Sub(g, pd).n.at
    modifies tree
    ensures
      var p := Sub(g, pd);
      Rep(tree.mem, tree.root, u,
          Mk(pd, Sub(p, pd), p.n, false, Mk(pd, Sub(p, Flip(pd)), g.n, true, Sub(g, Flip(pd)))))
    ensures SamePayload(old(tree.mem), tree.mem)
  {
    tree.Rotate(grandparent, Flip(pd), u, g);
    ghost var r := Rotated(g, Flip(pd));
    PaintedSub(tree.mem, tree.root, u, r, Flip(pd), true);
    tree.Paint(grandparent, true);
    r := WithSub(r, Flip(pd), Sub(r, Flip(pd)).(red := true));
    Painted(tree.mem, tree.root, u, r, false);
    tree.Paint(parent, false);
  }

  method FixRotate(tree: RbTree, node: Ptr, parent: Ptr, grandparent: Ptr, pd: Dir, ghost c: Ctx, ghost t: Shape)
    requires Rep(tree.mem, tree.root, c, t) && UnderRed(c) && t.Node?
    requires node == t.n.at && parent == c.n.at && grandparent == c.up.n.at && pd == c.up.d
    modifies tree
    ensures Rep(tree.mem, tree.root, c.up.up, RotationShape(c, t)) && SamePayload(old(tree.mem), tree.mem)
  {
    CtxFacts(tree.mem, tree.root, c, t);
    var nodeDir := if tree.mem[parent].right == node then Right else Left;
    if pd != nodeDir {
      ghost var p := MixedRotation(tree, parent, pd, c, t);
      SimpleRotation(tree, node, grandparent, pd, c.up.up, Mk(pd, p, c.up.n, c.up.red, c.up.sib));
    } else {
      RepUp(tree.mem, tree.root, c, t);
      RepUp(tree.mem, tree.root, c.up, Mk(c.d, t, c.n, c.red, c.sib));
      SimpleRotation(tree, parent, grandparent, pd, c.up.up, GrandTree(c, t));
    }
  }

  // ---------- the loop, as a function on trees ----------

  /** The whole tree that fix_insert leaves when it starts at the position of `t`. */
  function Fixed(c: Ctx, t: Shape): Shape
    requires t.Node?
    decreases c
  {
    if !UnderRed(c) then Plug(c, t)
    else if IsRed(c.up.sib) then Fixed(c.up.up, RecolourShape(c, t))
    else Plug(c.up.up, RotationShape(c, t))
  }

  /** The first fix-up step at this position is a mixed rotation. */
  predicate MixedFirst(c: Ctx) {
    UnderRed(c) && c.d != c.up.d && !IsRed(c.up.sib)
  }

  /** It is one when descriptor 7 is added after 10 and 5. */
  lemma MixedFirstExample()
    ensures
      var t := Node(Node(Nil, Id(2, 5), true, Nil), Id(1, 10), false, Nil);
      var (c, hole) := ProbeTo(Top, t, 7);
      Balanced(t) && Sorted(InOrder(t)) && hole.Nil? && MixedFirst(c)
  {
  }

  lemma StepInOrder(c: Ctx, t: Shape)
    requires UnderRed(c)
    ensures Spine(c.up.up, GrandTree(c, t)) == Spine(c, t)
  {
    SpineUp(c, t);
    SpineUp(c.up, Mk(c.d, t, c.n, c.red, c.sib));
  }

  /** No node is lost, duplicated or moved in key order. */
  lemma {:induction false} FixedInOrder(c: Ctx, t: Shape)
    requires t.Node?
    ensures InOrder(Fixed(c, t)) == Spine(c, t)
    decreases c
  {
    if !UnderRed(c) {
      PlugInOrder(c, t);
    } else {
      StepInOrder(c, t);
      if IsRed(c.up.sib) {
        RecolourInOrder(c, t);
        FixedInOrder(c.up.up, RecolourShape(c, t));
      } else {
        RotationInOrder(c, t);
        PlugInOrder(c.up.up, RotationShape(c, t));
      }
    }
  }

  lemma BlackenBalanced(w: Shape, h: int)
    requires RB(w, h) || (w.Node? && RB(w.left, h) && RB(w.right, h))
    ensures Balanced(Blacken(w))
  {
    var b := Blacken(w);
    if w.Nil? || (!w.red && RB(w, h)) {
      HeightUnique(b, h);
    } else {
      assert RB(b, h + 1);
      HeightUnique(b, h + 1);
    }
  }

  /** Where the loop stops without rotating: painting the root black makes the tree balanced. */
  lemma StoppedBalanced(c: Ctx, t: Shape, h: int)
    requires RB(t, h) && CtxOk(c, h) && (CtxRed(c) ==> c.up.Top? || !IsRed(t))
    ensures Balanced(Blacken(Plug(c, t)))
  {
    hide PlugHeight, Balanced, Blacken;
    if CtxRed(c) && c.up.Top? {
      var w := Mk(c.d, t, c.n, true, c.sib);
      assert Plug(c.up, w) == w;
      BlackenBalanced(w, h);
    } else {
      PlugRB(c, t, h);
      BlackenBalanced(Plug(c, t), PlugHeight(c, h));
    }
  }

  /** Once the root is painted black the result is a red-black tree. */
  lemma {:induction false} FixedBalanced(c: Ctx, t: Shape, h: int)
    requires IsRed(t) && RB(t, h) && CtxOk(c, h)
    ensures Balanced(Blacken(Fixed(c, t)))
    decreases c
  {
    if !UnderRed(c) {
      StoppedBalanced(c, t, h);
    } else if IsRed(c.up.sib) {
      RecolourBalance(c, t, h);
      FixedBalanced(c.up.up, RecolourShape(c, t), h + 1);
    } else {
      RotationBalance(c, t, h);
      StoppedBalanced(c.up.up, RotationShape(c, t), h + 1);
    }
  }

  // ---------- where the link to the new node ends up ----------

  lemma {:induction false} PlugCell(c: Ctx, t: Shape, x: Ptr)
    requires DistinctAt(c, t) && x in Nodes(t)
    ensures x in Nodes(Plug(c, t)) && CellAt(Plug(c, t), NULL, x) == CellAt(t, ParentOf(c), x)
    decreases c
  {
    if c.Up? {
      PlugCell(c.up, Mk(c.d, t, c.n, c.red, c.sib), x);
    }
  }

  function ChildOf(cell: Cell, d: Dir): Ptr { if d == Left then cell.left else cell.right }

  lemma RecolourDistinct(c: Ctx, t: Shape)
    requires UnderRed(c) && DistinctAt(c, t)
    ensures DistinctAt(c.up.up, RecolourShape(c, t))
  {
    assert DistinctCtx(c.up) && Distinct(c.up.sib);
    assert Nodes(Blacken(c.up.sib)) == Nodes(c.up.sib) && Distinct(Blacken(c.up.sib));
    var p := Mk(c.d, t, c.n, false, c.sib);
    assert Distinct(p) && Nodes(p) == Nodes(t) + {c.n.at} + Nodes(c.sib);
    assert DistinctAt(c.up, p);
  }

  lemma RecolourCell(c: Ctx, t: Shape, p: Ptr, x: Ptr, d: Dir)
    requires UnderRed(c) && DistinctAt(c, t) && (x == c.n.at || x in Nodes(t))
    ensures x in Nodes(RecolourShape(c, t)) && x != c.up.n.at
    ensures x == c.n.at ==> ChildOf(CellAt(RecolourShape(c, t), p, x), c.d) == RootOf(t)
    ensures x in Nodes(t) ==> ChildOf(CellAt(RecolourShape(c, t), p, x), d) == ChildOf(CellAt(t, c.n.at, x), d)
  {
  }

  lemma RotationDistinct(c: Ctx, t: Shape)
    requires UnderRed(c) && t.Node? && DistinctAt(c, t)
    ensures DistinctAt(c.up.up, RotationShape(c, t))
  {
    var pd := c.up.d;
    var p := Mk(c.d, t, c.n, c.red, c.sib);
    assert Distinct(p) && Nodes(p) == Nodes(t) + {c.n.at} + Nodes(c.sib);
    assert DistinctAt(c.up, p);
    if c.d == pd {
      var r := Mk(pd, c.sib, c.up.n, true, c.up.sib);
      assert Distinct(r) && Nodes(r) == Nodes(c.sib) + {c.up.n.at} + Nodes(c.up.sib);
    } else {
      var a, b := Sub(t, pd), Sub(t, Flip(pd));
      var l, r := Mk(pd, c.sib, c.n, true, a), Mk(pd, b, c.up.n, true, c.up.sib);
      assert Nodes(t) == Nodes(a) + {t.n.at} + Nodes(b);
      assert Distinct(l) && Nodes(l) == Nodes(c.sib) + {c.n.at} + Nodes(a);
      assert Distinct(r) && Nodes(r) == Nodes(b) + {c.up.n.at} + Nodes(c.up.sib);
    }
  }

  /** A rotation leaves the child links below the rotated nodes alone. */
  lemma RotationCell(c: Ctx, t: Shape, p: Ptr, x: Ptr, d: Dir)
    requires UnderRed(c) && t.Node? && DistinctAt(c, t) && x in Nodes(t) && x != t.n.at
    ensures x in Nodes(RotationShape(c, t))
    ensures ChildOf(CellAt(RotationShape(c, t), p, x), d) == ChildOf(CellAt(t, c.n.at, x), d)
  {
    RotationDistinct(c, t);
    var pd, r := c.up.d, RotationShape(c, t);
    if c.d == pd {
      assert CellAt(r, p, x) == CellAt(t, c.n.at, x);
    } else {
      var a, b := Sub(t, pd), Sub(t, Flip(pd));
      if x in Nodes(a) {
        assert CellAt(r, p, x) == CellAt(Sub(r, pd), t.n.at, x) == CellAt(a, c.n.at, x);
        ParentOnly(a, c.n.at, t.n.at, x);
      } else {
        assert CellAt(r, p, x) == CellAt(Sub(r, Flip(pd)), t.n.at, x) == CellAt(b, c.up.n.at, x);
        ParentOnly(b, c.up.n.at, t.n.at, x);
      }
    }
  }

  lemma ParentOnly(t: Shape, p: Ptr, q: Ptr, x: Ptr)
    requires x in Nodes(t)
    ensures CellAt(t, p, x) == CellAt(t, q, x) || CellAt(t, p, x) == CellAt(t, q, x).(parent := p)
  {
  }

  /** The link that received the new node holds it after rb_insert. */
  ghost predicate LinkKept(w: Shape, c: Ctx, node: Ptr)
    requires c.Up? && c.n.at in Nodes(w)
  {
    ChildOf(CellAt(w, NULL, c.n.at), c.d) == node
  }

  /** Higher up, nothing that fix_insert does reaches a child link strictly below the current node. */
  lemma {:induction false} FixedCell(c: Ctx, t: Shape, x: Ptr, d: Dir)
    requires t.Node? && DistinctAt(c, t) && x in Nodes(t) && x != t.n.at
    ensures x in Nodes(Fixed(c, t)) && ChildOf(CellAt(Fixed(c, t), NULL, x), d) == ChildOf(CellAt(t, ParentOf(c), x), d)
    decreases c
  {
    if !UnderRed(c) {
      PlugCell(c, t, x);
    } else if IsRed(c.up.sib) {
      RecolourDistinct(c, t);
      RecolourCell(c, t, ParentOf(c.up.up), x, d);
      FixedCell(c.up.up, RecolourShape(c, t), x, d);
    } else {
      RotationDistinct(c, t);
      RotationCell(c, t, ParentOf(c.up.up), x, d);
      PlugCell(c.up.up, RotationShape(c, t), x);
    }
  }

  /** The link that received the new node still holds it exactly when the first fix-up step was not a
      mixed rotation, whatever happens higher up. */
  lemma LinkKeptIff(c: Ctx, t: Shape)
    requires c.Up? && t.Node? && DistinctAt(c, t) && NULL !in Nodes(t)
    ensures c.n.at in Nodes(Fixed(c, t)) && (LinkKept(Fixed(c, t), c, t.n.at) <==> !MixedFirst(c))
  {
    if !UnderRed(c) {
      var p := Mk(c.d, t, c.n, c.red, c.sib);
      assert DistinctAt(c.up, p) && c.n.at in Nodes(p);
      PlugCell(c.up, p, c.n.at);
    } else if IsRed(c.up.sib) {
      RecolourDistinct(c, t);
      RecolourCell(c, t, ParentOf(c.up.up), c.n.at, c.d);
      FixedCell(c.up.up, RecolourShape(c, t), c.n.at, c.d);
    } else {
      RotationDistinct(c, t);
      var r, pd := RotationShape(c, t), c.up.d;
      var x := if c.d == pd then r else Sub(r, pd);
      assert c.n.at in Nodes(x) && c.n.at in Nodes(r);
      assert CellAt(r, ParentOf(c.up.up), c.n.at).left == RootOf(x.left);
      assert CellAt(r, ParentOf(c.up.up), c.n.at).right == RootOf(x.right);
      PlugCell(c.up.up, r, c.n.at);
      assert c.d != pd && Sub(t, pd).Node? ==> Sub(t, pd).n.at in Nodes(Sub(t, pd));
    }
  }

  // ---------- the code ----------

  /** What the code reads from memory before it chooses a branch. */
  lemma ReadsBack(m: Mem, root: Ptr, c: Ctx, t: Shape)
    requires Rep(m, root, c, t)
    ensures ParentOf(c) != NULL <==> c.Up?
    ensures c.Up? ==> c.n.at in m && m[c.n.at].red == c.red && m[c.n.at].parent == ParentOf(c.up)
    ensures t.Node? ==> t.n.at in m && t.n.at != NULL && m[t.n.at].parent == ParentOf(c) && m[t.n.at].red == t.red
  {
  }

  /** Lines 93-99: grandparent, the parent's side and the uncle's colour. */
  method Relatives(tree: RbTree, parent: Ptr, ghost c: Ctx, ghost t: Shape)
    returns (grandparent: Ptr, parentDir: Dir, uncle: Ptr, uncleRed: bool)
    requires Rep(tree.mem, tree.root, c, t) && CtxRed(c) && parent == c.n.at
    ensures grandparent == ParentOf(c.up) && (grandparent == NULL <==> c.up.Top?)
    ensures c.up.Up? ==> parentDir == c.up.d && uncle == RootOf(c.up.sib) && uncleRed == IsRed(c.up.sib)
  {
    ghost var p := Mk(c.d, t, c.n, c.red, c.sib);
    ReadsBack(tree.mem, tree.root, c, t);
    RepUp(tree.mem, tree.root, c, t);
    ReadsBack(tree.mem, tree.root, c.up, p);
    grandparent := tree.mem[parent].parent;
    if grandparent == NULL {
      return grandparent, Left, NULL, false;
    }
    CtxFacts(tree.mem, tree.root, c.up, p);
    parentDir := if tree.mem[grandparent].right == parent then Right else Left;
    uncle := tree.mem[grandparent].Child(Flip(parentDir));
    ghost var g := Mk(c.up.d, p, c.up.n, c.up.red, c.up.sib);
    RepUp(tree.mem, tree.root, c.up, p);
    RepDown(tree.mem, tree.root, c.up.up, g, Flip(c.up.d));
    ReadsBack(tree.mem, tree.root, Up(Flip(c.up.d), g.n, g.red, p, c.up.up), c.up.sib);
    uncleRed := tree.IsRedAt(uncle);
  }

  /** fix_insert computes exactly the tree `Fixed`. */
  method FixInsert(tree: RbTree, node0: Ptr, parent0: Ptr, ghost c0: Ctx, ghost t0: Shape)
    requires Rep(tree.mem, tree.root, c0, t0) && t0.Node? && node0 == t0.n.at && parent0 == ParentOf(c0)
    modifies tree
    ensures Rep(tree.mem, tree.root, Top, Fixed(c0, t0)) && SamePayload(old(tree.mem), tree.mem)
  {
    var node, parent := node0, parent0;
    ghost var c, t := c0, t0;
    ReadsBack(tree.mem, tree.root, c, t);
    while tree.IsRedAt(parent)
      invariant Rep(tree.mem, tree.root, c, t) && t.Node? && node == t.n.at && parent == ParentOf(c)
      invariant Fixed(c, t) == Fixed(c0, t0) && SamePayload(old(tree.mem), tree.mem)
      invariant (parent != NULL <==> c.Up?) && (c.Up? ==> parent in tree.mem && tree.mem[parent].red == c.red)
      decreases c
    {
      var grandparent, parentDir, uncle, uncleRed := Relatives(tree, parent, c, t);
      if grandparent == NULL {
        break;
      }
      if uncleRed {
        Recolour(tree, parent, grandparent, uncle, c, t);
        c, t := c.up.up, RecolourShape(c, t);
        ReadsBack(tree.mem, tree.root, c, t);
        node := grandparent;
        parent := tree.mem[node].parent;
      } else {
        FixRotate(tree, node, parent, grandparent, parentDir, c, t);
        RepWhole(tree.mem, tree.root, c.up.up, RotationShape(c, t));
        return;
      }
    }
    RepWhole(tree.mem, tree.root, c, t);
  }

  /** The tree after rb_insert of `n` at the hole of `c`. */
  function Inserted(c: Ctx, n: Id): Shape {
    Blacken(Fixed(c, Node(Nil, n, true, Nil)))
  }

  /** Inserting a fresh node at the link found by rb_probe keeps the tree a red-black tree over the old
      nodes and the new one. */
  lemma InsertedValid(c: Ctx, n: Id)
    requires Balanced(Plug(c, Nil)) && Sorted(InOrder(Plug(c, Nil))) && Brackets(c, n.fd)
    ensures Balanced(Inserted(c, n)) && Sorted(InOrder(Inserted(c, n)))
    ensures InOrder(Plug(c, Nil)) == Before(c) + After(c)
    ensures InOrder(Inserted(c, n)) == Before(c) + [n] + After(c)
  {
    var t := Node(Nil, n, true, Nil);
    PlugInOrder(c, Nil);
    var h := UnplugRB(c, Nil, BlackHeight(Plug(c, Nil)));
    FixedInOrder(c, t);
    FixedBalanced(c, t, h);
    assert InOrder(t) == [n];
    assert InOrder(Inserted(c, n)) == InOrder(Fixed(c, t));
    assert Before(c) + InOrder(Nil) + After(c) == Before(c) + After(c);
    SortedInsert(Before(c), n, After(c));
  }

  lemma SortedInsert(a: seq<Id>, n: Id, b: seq<Id>)
    requires Sorted(a + b) && (forall x :: x in a ==> x.fd < n.fd) && (forall x :: x in b ==> n.fd < x.fd)
    ensures Sorted(a + [n] + b)
  {
    var s, s' := a + b, a + [n] + b;
    forall i, j | 0 <= i < j < |s'|
      ensures s'[i].fd < s'[j].fd
    {
      var i0, j0 := if i <= |a| then i else i - 1, if j <= |a| then j else j - 1;
      assert i != |a| ==> s'[i] == s[i0];
      assert j != |a| ==> s'[j] == s[j0];
      assert i < |a| ==> s'[i] == a[i] && a[i] in a;
      assert j > |a| ==> s'[j] == b[j - |a| - 1] && b[j - |a| - 1] in b;
    }
  }

  /** rb_insert, for a red node without children at an empty link. */
  method Insert(tree: RbTree, node: Ptr, place: Place, parent: Ptr, ghost c: Ctx)
    requires Rep(tree.mem, tree.root, c, Nil) && place == PlaceOf(c) && parent == ParentOf(c)
    requires node != NULL && node in tree.mem && node !in CtxNodes(c)
    requires tree.mem[node].red && tree.mem[node].left == NULL && tree.mem[node].right == NULL
    modifies tree
    ensures Rep(tree.mem, tree.root, Top, Inserted(c, Id(node, old(tree.mem)[node].fd)))
    ensures SamePayload(old(tree.mem), tree.mem)
  {
    ghost var n := Id(node, tree.mem[node].fd);
    ghost var t := Node(Nil, n, true, Nil);
    Hang(tree, node, place, parent, c);
    ReadsBack(tree.mem, tree.root, c, t);
    if tree.IsRedAt(parent) {
      FixInsert(tree, node, parent, c, t);
    } else {
      RepWhole(tree.mem, tree.root, c, t);
    }
    ghost var w := Fixed(c, t);
    FixedInOrder(c, t);
    assert w.Node? by { assert InOrder(Nil) == [] != Spine(c, t); }
    ReadsBack(tree.mem, tree.root, Top, w);
    Painted(tree.mem, tree.root, Top, w, false);
    tree.Paint(tree.root, false);
  }

  /** Lines 130-131. */
  method Hang(tree: RbTree, node: Ptr, place: Place, parent: Ptr, ghost c: Ctx)
    requires Rep(tree.mem, tree.root, c, Nil) && place == PlaceOf(c) && parent == ParentOf(c)
    requires node != NULL && node in tree.mem && node !in CtxNodes(c)
    requires tree.mem[node].red && tree.mem[node].left == NULL && tree.mem[node].right == NULL
    modifies tree
    ensures Rep(tree.mem, tree.root, c, Node(Nil, Id(node, old(tree.mem)[node].fd), true, Nil))
    ensures SamePayload(old(tree.mem), tree.mem)
  {
    if c.Up? {
      CtxFacts(tree.mem, tree.root, c, Nil);
    }
    tree.Store(place, node);
    tree.mem := PutParent(tree.mem, node, parent);
    HoleFilled(old(tree.mem), tree.mem, c, NULL, node);
    assert Nodes(Node(Nil, Id(node, old(tree.mem)[node].fd), true, Nil)) == {node};
  }

  // ---------- the write-back in reserve_evt_mem ----------

  /** The next node that a search for `fd` looks at after `x`. */
  function NextProbed(m: Mem, x: Ptr, fd: int): Ptr
    requires x in m
  {
    m[x].Child(if fd > m[x].fd then Right else Left)
  }

  lemma BlackenCell(w: Shape, p: Ptr, x: Ptr)
    requires x in Nodes(w)
    ensures x in Nodes(Blacken(w))
    ensures CellAt(Blacken(w), p, x) == CellAt(w, p, x).(red := CellAt(Blacken(w), p, x).red)
  {
  }

  /** What the link holds once rb_insert is done. */
  lemma LinkAfterInsert(m: Mem, root: Ptr, c: Ctx, n: Id)
    requires DistinctAt(c, Nil) && n.at !in CtxNodes(c) && n.at != NULL
    requires Rep(m, root, Top, Inserted(c, n))
    ensures c.Top? ==> root == n.at
    ensures c.Up? ==> c.n.at in m && (m[c.n.at].Child(c.d) == n.at <==> !MixedFirst(c))
  {
    var t := Node(Nil, n, true, Nil);
    assert Nodes(t) == {n.at} && DistinctAt(c, t);
    if c.Up? {
      LinkKeptIff(c, t);
      BlackenCell(Fixed(c, t), NULL, c.n.at);
    }
  }

  /** After a mixed rotation the old parent is a child of the new node. */
  lemma MixedNeighbours(m: Mem, root: Ptr, c: Ctx, n: Id)
    requires DistinctAt(c, Nil) && n.at !in CtxNodes(c) && n.at != NULL && MixedFirst(c)
    requires Rep(m, root, Top, Inserted(c, n))
    ensures n.at in m && m[n.at].Child(c.up.d) == c.n.at && m[n.at].fd == n.fd
    ensures c.n.at in m && m[c.n.at].fd == c.n.fd && c.n.at != n.at
  {
    var t := Node(Nil, n, true, Nil);
    assert Nodes(t) == {n.at} && DistinctAt(c, t);
    var r := RotationShape(c, t);
    RotationDistinct(c, t);
    assert n.at in Nodes(r) && c.n.at in Nodes(Sub(r, c.up.d)) && c.n.at in Nodes(r);
    PlugCell(c.up.up, r, n.at);
    PlugCell(c.up.up, r, c.n.at);
    BlackenCell(Plug(c.up.up, r), NULL, n.at);
    BlackenCell(Plug(c.up.up, r), NULL, c.n.at);
    assert CellAt(r, ParentOf(c.up.up), c.n.at) == CellAt(Sub(r, c.up.d), n.at, c.n.at);
  }

  function WriteBack(m: Mem, c: Ctx, node: Ptr): Mem
    requires c.Up? ==> c.n.at in m
  {
    if c.Top? then m else PutChild(m, c.n.at, c.d, node)
  }

  /** The write-back is harmless exactly when the first fix-up step was not a mixed rotation. */
  lemma WriteBackIff(m: Mem, root: Ptr, c: Ctx, n: Id)
    requires DistinctAt(c, Nil) && n.at !in CtxNodes(c) && n.at != NULL
    requires Rep(m, root, Top, Inserted(c, n))
    ensures c.Top? ==> root == n.at
    ensures c.Up? ==> c.n.at in m
    ensures Rep(WriteBack(m, c, n.at), root, Top, Inserted(c, n)) <==> !MixedFirst(c)
  {
    LinkAfterInsert(m, root, c, n);
    if MixedFirst(c) {
      OverwrittenLink(WriteBack(m, c, n.at), root, c, n);
    } else {
      assert WriteBack(m, c, n.at) == m;
    }
  }

  /** After a harmful write-back a search for a descriptor between those of the new node and its old
      parent goes back and forth between the two for ever. */
  lemma WriteBackLoops(m: Mem, root: Ptr, c: Ctx, n: Id, fd: int)
    requires DistinctAt(c, Nil) && n.at !in CtxNodes(c) && n.at != NULL && Brackets(c, n.fd) && MixedFirst(c)
    requires Rep(m, root, Top, Inserted(c, n))
    requires c.n.fd < fd < n.fd || n.fd < fd < c.n.fd
    ensures c.n.at in m && n.at in m
    ensures NextProbed(WriteBack(m, c, n.at), n.at, fd) == c.n.at
    ensures NextProbed(WriteBack(m, c, n.at), c.n.at, fd) == n.at
  {
    MixedNeighbours(m, root, c, n);
    BracketsSide(c, n.fd);
  }

  /** rb_insert followed by the two write-backs of `*place`.  Memory still holds the inserted tree if and
      only if the first fix-up step was not a mixed rotation. */
  method InsertAndWriteBack(tree: RbTree, node: Ptr, place: Place, parent: Ptr, ghost c: Ctx)
    requires Rep(tree.mem, tree.root, c, Nil) && place == PlaceOf(c) && parent == ParentOf(c)
    requires node != NULL && node in tree.mem && node !in CtxNodes(c)
    requires tree.mem[node].red && tree.mem[node].left == NULL && tree.mem[node].right == NULL
    modifies tree
    ensures Rep(tree.mem, tree.root, Top, Inserted(c, Id(node, old(tree.mem)[node].fd))) <==> !MixedFirst(c)
    ensures SamePayload(old(tree.mem), tree.mem)
  {
    hide Inserted, MixedFirst, DistinctAt, Holds, HoldsCtx;
    ghost var n := Id(node, tree.mem[node].fd);
    Insert(tree, node, place, parent, c);
    WriteBackIff(tree.mem, tree.root, c, n);
    ghost var m1 := tree.mem;
    tree.Store(place, node);
    tree.Store(place, node);
    assert tree.mem == WriteBack(m1, c, node);
  }

  lemma BracketsSide(c: Ctx, fd: int)
    requires c.Up? && Brackets(c, fd)
    ensures c.d == Right ==> c.n.fd < fd
    ensures c.d == Left ==> fd < c.n.fd
  {
  }

  lemma OverwrittenLink(m': Mem, root: Ptr, c: Ctx, n: Id)
    requires DistinctAt(c, Nil) && n.at !in CtxNodes(c) && n.at != NULL && MixedFirst(c)
    requires c.n.at in m' && m'[c.n.at].Child(c.d) == n.at
    ensures !Rep(m', root, Top, Inserted(c, n))
  {
    if Rep(m', root, Top, Inserted(c, n)) {
      LinkAfterInsert(m', root, c, n);
    }
  }
}
