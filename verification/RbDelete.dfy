/** fix_delete (src/rbtree.c:139-186). */
module RbDeletion {
  import opened RbShape
  import opened RbLinks
  import opened RbTrees
  import opened RbInsertion

  // ---------- the loop, as a function on trees ----------

  /** The context after the red-sibling step: the same subtree, one level deeper. */
  function RedSiblingCtx(c: Ctx): (r: Ctx)
    requires c.Up? && c.sib.Node?
    ensures Depth(r) == Depth(c) + 1
  {
    var upper := Up(c.d, c.sib.n, false, Sub(c.sib, Flip(c.d)), c.up);
    assert Depth(upper) == Depth(c);
    Up(c.d, c.n, true, Sub(c.sib, c.d), upper)
  }

  /** `t` is balanced but one black node short of h + 1; painting a red root black makes up for it. */
  predicate Short(t: Shape, h: int) {
    if IsRed(t) then RB(Blacken(t), h + 1) else RB(t, h)
  }

  /** The sibling after its red near child has been rotated to the far side. */
  function NearToFar(s: Shape, d: Dir): Shape
    requires s.Node? && Sub(s, d).Node?
  {
    var near := Sub(s, d);
    Mk(d, Sub(near, d), near.n, false, Mk(d, Sub(near, Flip(d)), s.n, true, Sub(s, Flip(d))))
  }

  /** The closing rotation: the sibling takes the parent's place and colour. */
  function Closed(c: Ctx, t: Shape, s: Shape): Shape
    requires c.Up? && s.Node?
  {
    Mk(c.d, Mk(c.d, t, c.n, false, Sub(s, c.d)), s.n, c.red, Blacken(Sub(s, Flip(c.d))))
  }

  /** A short position always has a sibling, so the code never follows a NULL sibling. */
  lemma SiblingExists(c: Ctx, t: Shape, h: int)
    requires Short(t, h) && CtxOk(c, h + 1) && c.Up? && !IsRed(t)
    ensures c.sib.Node? && h >= 0 && (IsRed(c.sib) ==> !c.red && Sub(c.sib, c.d).Node?)
  {
    RBNonNegative(t, h);
    RBNonNegative(c.sib, h + 1);
    if IsRed(c.sib) {
      RBNonNegative(Sub(c.sib, c.d), h + 1);
    }
  }

  /** The whole tree that fix_delete leaves when the subtree `t` is one black node short. */
  ghost function DelFixed(c: Ctx, t: Shape, h: int): Shape
    requires Short(t, h) && CtxOk(c, h + 1)
    decreases !IsRed(t), Depth(c) + if CtxRed(c) then 0 else 2
  {
    if IsRed(t) || c.Top? then Plug(c, Blacken(t))
    else
      SiblingExists(c, t, h);
      if IsRed(c.sib) then DelFixed(RedSiblingCtx(c), t, h)
      else
        var near, far := Sub(c.sib, c.d), Sub(c.sib, Flip(c.d));
        if !IsRed(near) && !IsRed(far) then
          DelFixed(c.up, Mk(c.d, t, c.n, c.red, c.sib.(red := true)), if c.red then h else h + 1)
        else Plug(c.up, Closed(c, t, if IsRed(far) then c.sib else NearToFar(c.sib, c.d)))
  }

  lemma ClosedBalance(c: Ctx, t: Shape, s: Shape, h: int)
    requires c.Up? && RB(t, h) && RB(s, h + 1) && s.Node? && !s.red && IsRed(Sub(s, Flip(c.d)))
    ensures RB(Closed(c, t, s), if c.red then h + 1 else h + 2) || IsRed(t)
    ensures !IsRed(t) ==> RB(Closed(c, t, s), if c.red then h + 1 else h + 2) && IsRed(Closed(c, t, s)) == c.red
  {
  }

  lemma NearToFarBalance(s: Shape, d: Dir, h: int)
    requires s.Node? && !s.red && IsRed(Sub(s, d)) && !IsRed(Sub(s, Flip(d))) && RB(s, h)
    ensures RB(NearToFar(s, d), h) && !NearToFar(s, d).red && IsRed(Sub(NearToFar(s, d), Flip(d)))
  {
  }

  /** A tree that is short of one black node on one path becomes a red-black tree. */
  lemma {:induction false} DelFixedBalanced(c: Ctx, t: Shape, h: int)
    requires Short(t, h) && CtxOk(c, h + 1) && !CtxTopRed(c)
    ensures Balanced(DelFixed(c, t, h))
    decreases !IsRed(t), Depth(c) + if CtxRed(c) then 0 else 2
  {
    if IsRed(t) || c.Top? {
      var b, h1 := Blacken(t), if IsRed(t) then h + 1 else h;
      if c.Up? {
        PlugRB(c, b, h + 1);
        PlugRootColour(c, b);
        HeightUnique(Plug(c, b), PlugHeight(c, h + 1));
      } else {
        HeightUnique(b, h1);
      }
    } else {
      SiblingExists(c, t, h);
      if IsRed(c.sib) {
        DelFixedBalanced(RedSiblingCtx(c), t, h);
      } else {
        var near, far := Sub(c.sib, c.d), Sub(c.sib, Flip(c.d));
        if !IsRed(near) && !IsRed(far) {
          DelFixedBalanced(c.up, Mk(c.d, t, c.n, c.red, c.sib.(red := true)), if c.red then h else h + 1);
        } else {
          ClosingBalanced(c, t, h);
        }
      }
    }
  }

  lemma ClosingBalanced(c: Ctx, t: Shape, h: int)
    requires RB(t, h) && !IsRed(t) && CtxOk(c, h + 1) && !CtxTopRed(c) && c.Up? && c.sib.Node? && !c.sib.red
    requires IsRed(Sub(c.sib, c.d)) || IsRed(Sub(c.sib, Flip(c.d)))
    ensures
      var s := if IsRed(Sub(c.sib, Flip(c.d))) then c.sib else NearToFar(c.sib, c.d);
      Balanced(Plug(c.up, Closed(c, t, s)))
  {
    var far := Sub(c.sib, Flip(c.d));
    var s := if IsRed(far) then c.sib else NearToFar(c.sib, c.d);
    if !IsRed(far) {
      NearToFarBalance(c.sib, c.d, h + 1);
    }
    ClosedBalance(c, t, s, h);
    var r, h1 := Closed(c, t, s), if c.red then h + 1 else h + 2;
    PlugRB(c.up, r, h1);
    PlugRootColour(c.up, r);
    HeightUnique(Plug(c.up, r), PlugHeight(c.up, h1));
  }

  // ---------- order ----------

  lemma ClosedInOrder(c: Ctx, t: Shape, s: Shape)
    requires c.Up? && s.Node?
    ensures InOrder(Closed(c, t, s)) == Around(c.d, InOrder(t), [c.n], InOrder(s))
  {
    var near, far, d := Sub(s, c.d), Sub(s, Flip(c.d)), c.d;
    MkInOrder(d, near, s.n, s.red, far);
    MkInOrder(d, t, c.n, false, near);
    MkInOrder(d, Mk(d, t, c.n, false, near), s.n, c.red, Blacken(far));
    assert InOrder(Blacken(far)) == InOrder(far);
    AroundAssociative(d, InOrder(t), [c.n], InOrder(near), [s.n], InOrder(far));
  }

  lemma NearToFarInOrder(s: Shape, d: Dir)
    requires s.Node? && Sub(s, d).Node?
    ensures InOrder(NearToFar(s, d)) == InOrder(s)
  {
  }

  lemma RedSiblingSpine(c: Ctx, t: Shape)
    requires c.Up? && c.sib.Node?
    ensures Spine(RedSiblingCtx(c), t) == Spine(c, t)
  {
    var c' := RedSiblingCtx(c);
    SpineUp(c', t);
    SpineUp(c'.up, Mk(c.d, t, c.n, true, Sub(c.sib, c.d)));
    SpineUp(c, t);
    var near, far, d := Sub(c.sib, c.d), Sub(c.sib, Flip(c.d)), c.d;
    MkInOrder(d, t, c.n, c.red, c.sib);
    MkInOrder(d, near, c.sib.n, c.sib.red, far);
    MkInOrder(d, t, c.n, true, near);
    MkInOrder(d, Mk(d, t, c.n, true, near), c.sib.n, false, far);
    AroundAssociative(d, InOrder(t), [c.n], InOrder(near), [c.sib.n], InOrder(far));
  }

  lemma {:induction false} DelFixedInOrder(c: Ctx, t: Shape, h: int)
    requires Short(t, h) && CtxOk(c, h + 1)
    ensures InOrder(DelFixed(c, t, h)) == Spine(c, t)
    decreases !IsRed(t), Depth(c) + if CtxRed(c) then 0 else 2
  {
    if IsRed(t) || c.Top? {
      PlugInOrder(c, Blacken(t));
      assert InOrder(Blacken(t)) == InOrder(t);
    } else {
      SiblingExists(c, t, h);
      if IsRed(c.sib) {
        RedSiblingSpine(c, t);
        DelFixedInOrder(RedSiblingCtx(c), t, h);
      } else {
        var near, far := Sub(c.sib, c.d), Sub(c.sib, Flip(c.d));
        SpineUp(c, t);
        MkInOrder(c.d, t, c.n, c.red, c.sib);
        if !IsRed(near) && !IsRed(far) {
          var p := Mk(c.d, t, c.n, c.red, c.sib.(red := true));
          MkInOrder(c.d, t, c.n, c.red, c.sib.(red := true));
          assert InOrder(c.sib.(red := true)) == InOrder(c.sib);
          DelFixedInOrder(c.up, p, if c.red then h else h + 1);
        } else {
          var s := if IsRed(far) then c.sib else NearToFar(c.sib, c.d);
          if !IsRed(far) {
            NearToFarInOrder(c.sib, c.d);
          }
          ClosedInOrder(c, t, s);
          PlugInOrder(c.up, Closed(c, t, s));
        }
      }
    }
  }

  // ---------- the code ----------

  function ParentTree(c: Ctx, t: Shape): Shape
    requires c.Up?
  {
    Mk(c.d, t, c.n, c.red, c.sib)
  }

  /** The same tree seen from the sibling of the position. */
  function SibCtx(c: Ctx, t: Shape): Ctx
    requires c.Up?
  {
    Up(Flip(c.d), c.n, c.red, t, c.up)
  }

  lemma ToSibling(m: Mem, root: Ptr, c: Ctx, t: Shape)
    requires Rep(m, root, c, t) && c.Up?
    ensures Rep(m, root, SibCtx(c, t), c.sib)
  {
    RepUp(m, root, c, t);
    assert ParentTree(c, t) == Mk(Flip(c.d), c.sib, c.n, c.red, t);
    RepDown(m, root, c.up, ParentTree(c, t), Flip(c.d));
  }

  method RedSiblingStep(tree: RbTree, parent: Ptr, sibling: Ptr, d: Dir, ghost c: Ctx, ghost t: Shape)
    requires Rep(tree.mem, tree.root, c, t) && c.Up? && c.sib.Node?
    requires parent == c.n.at && sibling == c.sib.n.at && d == c.d
    modifies tree
    ensures Rep(tree.mem, tree.root, RedSiblingCtx(c), t) && SamePayload(old(tree.mem), tree.mem)
  {
    ghost var p := ParentTree(c, t);
    RepUp(tree.mem, tree.root, c, t);
    Painted(tree.mem, tree.root, c.up, p, true);
    tree.Paint(parent, true);
    p := p.(red := true);
    PaintedSub(tree.mem, tree.root, c.up, p, Flip(d), false);
    tree.Paint(sibling, false);
    p := WithSub(p, Flip(d), c.sib.(red := false));
    tree.Rotate(parent, d, c.up, p);
    RedSiblingFocus(tree.mem, tree.root, c, t);
  }

  lemma RedSiblingFocus(m: Mem, root: Ptr, c: Ctx, t: Shape)
    requires c.Up? && c.sib.Node?
    requires Rep(m, root, c.up, Mk(c.d, Mk(c.d, t, c.n, true, Sub(c.sib, c.d)), c.sib.n, false, Sub(c.sib, Flip(c.d))))
    ensures Rep(m, root, RedSiblingCtx(c), t)
  {
    var inner := Mk(c.d, t, c.n, true, Sub(c.sib, c.d));
    RepDown(m, root, c.up, Mk(c.d, inner, c.sib.n, false, Sub(c.sib, Flip(c.d))), c.d);
    RepDown(m, root, Up(c.d, c.sib.n, false, Sub(c.sib, Flip(c.d)), c.up), inner, c.d);
  }

  method RecolourSibling(tree: RbTree, sibling: Ptr, ghost c: Ctx, ghost t: Shape)
    requires Rep(tree.mem, tree.root, c, t) && c.Up? && c.sib.Node? && sibling == c.sib.n.at
    modifies tree
    ensures Rep(tree.mem, tree.root, c.up, SiblingRecoloured(c, t))
    ensures SamePayload(old(tree.mem), tree.mem)
  {
    RepUp(tree.mem, tree.root, c, t);
    PaintedSub(tree.mem, tree.root, c.up, ParentTree(c, t), Flip(c.d), true);
    tree.Paint(sibling, true);
  }

  /** Lines 170-172, seen from the sibling `s` in its context `cs`. */
  method NearStep(tree: RbTree, near: Ptr, sibling: Ptr, d: Dir, ghost cs: Ctx, ghost s: Shape)
    requires Rep(tree.mem, tree.root, cs, s) && s.Node? && Sub(s, d).Node?
    requires sibling == s.n.at && near == Sub(s, d).n.at
    modifies tree
    ensures Rep(tree.mem, tree.root, cs, NearToFar(s, d)) && SamePayload(old(tree.mem), tree.mem)
  {
    PaintedSub(tree.mem, tree.root, cs, s, d, false);
    tree.Paint(near, false);
    ghost var s1 := WithSub(s, d, Sub(s, d).(red := false));
    Painted(tree.mem, tree.root, cs, s1, true);
    tree.Paint(sibling, true);
    tree.Rotate(sibling, Flip(d), cs, s1.(red := true));
  }

  /** Memory before the closing rotation: far nephew black, parent black, sibling in the parent's colour. */
  lemma ClosePainted(m: Mem, root: Ptr, c: Ctx, t: Shape)
    requires Rep(m, root, c, t) && c.Up? && c.sib.Node? && !c.sib.red && Sub(c.sib, Flip(c.d)).Node?
    ensures
      var far := Sub(c.sib, Flip(c.d));
      && far.n.at in m && c.n.at in m && c.sib.n.at in m
      && var m' := SwapColours(PutRed(m, far.n.at, false), c.n.at, c.sib.n.at);
      && Rep(m', root, c.up, Mk(c.d, t, c.n, false, WithSub(c.sib.(red := c.red), Flip(c.d), Blacken(far))))
      && SamePayload(m, m')
  {
    var d, far := c.d, Sub(c.sib, Flip(c.d));
    var s1 := WithSub(c.sib, Flip(d), Blacken(far));
    var c1 := c.(sib := s1);
    ToSibling(m, root, c, t);
    PaintedSub(m, root, SibCtx(c, t), c.sib, Flip(d), false);
    var m1 := PutRed(m, far.n.at, false);
    ToSibling(m1, root, SibCtx(c, t), s1);
    LinkHolds(m1, root, SibCtx(c, t), s1);
    CtxFacts(m1, root, c1, t);
    RepUp(m1, root, c1, t);
    var p1 := ParentTree(c1, t);
    Painted(m1, root, c.up, p1, false);
    var m2 := PutRed(m1, c.n.at, false);
    PaintedSub(m2, root, c.up, p1.(red := false), Flip(d), c.red);
  }

  /** Lines 177-180. */
  method CloseStep(tree: RbTree, parent: Ptr, sibling: Ptr, far: Ptr, d: Dir, ghost c: Ctx, ghost t: Shape)
    requires Rep(tree.mem, tree.root, c, t) && c.Up? && c.sib.Node? && !c.sib.red && Sub(c.sib, Flip(c.d)).Node?
    requires parent == c.n.at && sibling == c.sib.n.at && far == Sub(c.sib, Flip(c.d)).n.at && d == c.d
    modifies tree
    ensures Rep(tree.mem, tree.root, c.up, Closed(c, t, c.sib)) && SamePayload(old(tree.mem), tree.mem)
  {
    ClosePainted(tree.mem, tree.root, c, t);
    tree.mem := PutRed(tree.mem, far, false);
    tree.mem := SwapColours(tree.mem, parent, sibling);
    ghost var s := WithSub(c.sib.(red := c.red), Flip(d), Blacken(Sub(c.sib, Flip(d))));
    tree.Rotate(parent, d, c.up, Mk(d, t, c.n, false, s));
  }

  /** The relatives of the position that the code looks at. */
  lemma SiblingReads(m: Mem, root: Ptr, c: Ctx, t: Shape)
    requires Rep(m, root, c, t) && c.Up? && c.sib.Node?
    ensures c.n.at in m && (m[c.n.at].right == RootOf(t) <==> c.d == Right)
    ensures m[c.n.at].Child(Flip(c.d)) == c.sib.n.at && c.sib.n.at in m && m[c.sib.n.at].red == c.sib.red
    ensures forall d :: m[c.sib.n.at].Child(d) == RootOf(Sub(c.sib, d))
    ensures forall d :: Sub(c.sib, d).Node? ==>
      Sub(c.sib, d).n.at in m && Sub(c.sib, d).n.at != NULL && m[Sub(c.sib, d).n.at].red == Sub(c.sib, d).red
  {
    var cs := SibCtx(c, t);
    CtxFacts(m, root, c, t);
    ToSibling(m, root, c, t);
    CtxFacts(m, root, cs, c.sib);
    LinkHolds(m, root, cs, c.sib);
    forall d | Sub(c.sib, d).Node?
      ensures Sub(c.sib, d).n.at in m && Sub(c.sib, d).n.at != NULL && m[Sub(c.sib, d).n.at].red == Sub(c.sib, d).red
    {
      RepDown(m, root, cs, c.sib, d);
      LinkHolds(m, root, Up(d, c.sib.n, c.sib.red, Sub(c.sib, Flip(d)), cs), Sub(c.sib, d));
    }
  }

  /** Lines 144-158: which side is short, the sibling, and the colours around it. */
  method LookAround(tree: RbTree, db: Ptr, parent: Ptr, ghost c: Ctx, ghost t: Shape)
    returns (d: Dir, sibling: Ptr, sibRed: bool, nearRed: bool, farRed: bool)
    requires Rep(tree.mem, tree.root, c, t) && c.Up? && c.sib.Node? && db == RootOf(t) && parent == c.n.at
    ensures d == c.d && sibling == c.sib.n.at && sibRed == c.sib.red
    ensures nearRed == IsRed(Sub(c.sib, d)) && farRed == IsRed(Sub(c.sib, Flip(d)))
  {
    SiblingReads(tree.mem, tree.root, c, t);
    d := if tree.mem[parent].right == db then Right else Left;
    sibling := tree.mem[parent].Child(Flip(d));
    sibRed := tree.mem[sibling].red;
    var near, far := tree.mem[sibling].Child(d), tree.mem[sibling].Child(Flip(d));
    nearRed, farRed := tree.IsRedAt(near), tree.IsRedAt(far);
  }

  /** Lines 168-180: move a near red nephew to the far side if need be, then close with a rotation. */
  method Close(tree: RbTree, parent: Ptr, sibling0: Ptr, d: Dir, farRed: bool, ghost c: Ctx, ghost t: Shape)
    requires Rep(tree.mem, tree.root, c, t) && c.Up? && c.sib.Node? && !c.sib.red
    requires parent == c.n.at && sibling0 == c.sib.n.at && d == c.d
    requires farRed == IsRed(Sub(c.sib, Flip(d))) && (farRed || IsRed(Sub(c.sib, d)))
    modifies tree
    ensures Rep(tree.mem, tree.root, c.up, Closed(c, t, if farRed then c.sib else NearToFar(c.sib, d)))
    ensures SamePayload(old(tree.mem), tree.mem)
  {
    var sibling := sibling0;
    ghost var s := c.sib;
    SiblingReads(tree.mem, tree.root, c, t);
    if !farRed {
      ToSibling(tree.mem, tree.root, c, t);
      NearStep(tree, tree.mem[sibling].Child(d), sibling, d, SibCtx(c, t), s);
      s := NearToFar(s, d);
      ToSibling(tree.mem, tree.root, SibCtx(c, t), s);
      SiblingReads(tree.mem, tree.root, c.(sib := s), t);
      sibling := tree.mem[parent].Child(Flip(d));
    }
    assert Closed(c.(sib := s), t, s) == Closed(c, t, s);
    CloseStep(tree, parent, sibling, tree.mem[sibling].Child(Flip(d)), d, c.(sib := s), t);
  }

  ghost function Measure(c: Ctx, t: Shape): nat {
    if IsRed(t) then 0 else 1 + Depth(c) + if CtxRed(c) then 0 else 2
  }

  function SiblingRecoloured(c: Ctx, t: Shape): Shape
    requires c.Up? && c.sib.Node?
  {
    Mk(c.d, t, c.n, c.red, c.sib.(red := true))
  }

  /** One turn of the loop, on trees. */
  lemma DelFixedStep(c: Ctx, t: Shape, h: int)
    requires Short(t, h) && CtxOk(c, h + 1) && c.Up? && !IsRed(t)
    ensures c.sib.Node?
    ensures c.sib.red ==>
      CtxOk(RedSiblingCtx(c), h + 1) && DelFixed(RedSiblingCtx(c), t, h) == DelFixed(c, t, h)
      && Measure(RedSiblingCtx(c), t) < Measure(c, t)
    ensures !c.sib.red && !IsRed(c.sib.left) && !IsRed(c.sib.right) ==>
      var p, h1 := SiblingRecoloured(c, t), if c.red then h else h + 1;
      Short(p, h1) && CtxOk(c.up, h1 + 1) && DelFixed(c.up, p, h1) == DelFixed(c, t, h)
      && Measure(c.up, p) < Measure(c, t)
    ensures !c.sib.red && (IsRed(c.sib.left) || IsRed(c.sib.right)) ==>
      DelFixed(c, t, h)
      == Plug(c.up, Closed(c, t, if IsRed(Sub(c.sib, Flip(c.d))) then c.sib else NearToFar(c.sib, c.d)))
  {
    SiblingExists(c, t, h);
  }

  /** The situation at the loop head: `t` is short and `db`, `parent` point at it and above it. */
  ghost predicate Fixing(tree: RbTree, db: Ptr, parent: Ptr, c: Ctx, t: Shape, h: int)
    reads tree
  {
    Rep(tree.mem, tree.root, c, t) && db == RootOf(t) && parent == ParentOf(c) && Short(t, h) && CtxOk(c, h + 1)
  }

  /** The loop body of fix_delete below the root. */
  method Turn(tree: RbTree, db: Ptr, parent: Ptr, ghost c: Ctx, ghost t: Shape, ghost h: int)
    returns (done: bool, db': Ptr, parent': Ptr, ghost c': Ctx, ghost t': Shape, ghost h': int)
    requires Fixing(tree, db, parent, c, t, h) && c.Up? && !IsRed(t)
    modifies tree
    ensures SamePayload(old(tree.mem), tree.mem)
    ensures done ==> Rep(tree.mem, tree.root, Top, DelFixed(c, t, h))
    ensures !done ==> Fixing(tree, db', parent', c', t', h') && DelFixed(c', t', h') == DelFixed(c, t, h)
    ensures !done ==> Measure(c', t') < Measure(c, t)
  {
    DelFixedStep(c, t, h);
    var d, sibling, sibRed, nearRed, farRed := LookAround(tree, db, parent, c, t);
    c', t', h' := c, t, h;
    if sibRed {
      RedSiblingStep(tree, parent, sibling, d, c, t);
      c' := RedSiblingCtx(c);
      done, db', parent' := false, db, parent;
    } else if !nearRed && !farRed {
      RecolourSibling(tree, sibling, c, t);
      c', t', h' := c.up, SiblingRecoloured(c, t), if c.red then h else h + 1;
      ReadsBack(tree.mem, tree.root, c', t');
      done, db', parent' := false, parent, tree.mem[parent].parent;
    } else {
      Close(tree, parent, sibling, d, farRed, c, t);
      RepWhole(tree.mem, tree.root, c.up, Closed(c, t, if farRed then c.sib else NearToFar(c.sib, d)));
      done, db', parent' := true, db, parent;
    }
  }

  /** fix_delete.  Called with consistent arguments (`regular`) it computes exactly the tree `DelFixed`;
      in particular it terminates although the red-sibling step moves the position one level down.
      Called without a parent it stops at once and only paints `db0` black. */
  method FixDelete(tree: RbTree, db0: Ptr, parent0: Ptr, ghost regular: bool, ghost c0: Ctx, ghost t0: Shape,
      ghost h0: int)
    requires regular ==> Fixing(tree, db0, parent0, c0, t0, h0)
    requires !regular ==> parent0 == NULL && (db0 != NULL ==> db0 in tree.mem)
    modifies tree
    ensures regular ==>
      Rep(tree.mem, tree.root, Top, DelFixed(c0, t0, h0)) && SamePayload(old(tree.mem), tree.mem)
    ensures !regular ==>
      tree.root == old(tree.root)
      && tree.mem == if db0 == NULL then old(tree.mem) else PutRed(old(tree.mem), db0, false)
  {
    var db, parent, done := db0, parent0, false;
    ghost var c, t, h := c0, t0, h0;
    if regular {
      ReadsBack(tree.mem, tree.root, c, t);
    }
    while !tree.IsRedAt(db)
      invariant regular ==> Fixing(tree, db, parent, c, t, h) && DelFixed(c, t, h) == DelFixed(c0, t0, h0)
      invariant regular ==> SamePayload(old(tree.mem), tree.mem) && (db != NULL ==> tree.mem[db].red == t.red)
      invariant regular ==> (db != NULL <==> t.Node?)
      invariant !regular ==> db == db0 && parent == NULL && tree.mem == old(tree.mem) && tree.root == old(tree.root)
      invariant db != NULL ==> db in tree.mem
      decreases if regular then Measure(c, t) else 0
    {
      if regular {
        ReadsBack(tree.mem, tree.root, c, t);
      }
      if parent == NULL {
        break;
      }
      done, db, parent, c, t, h := Turn(tree, db, parent, c, t, h);
      if done {
        return;
      }
      ReadsBack(tree.mem, tree.root, c, t);
    }
    if regular {
      FinishDelete(tree.mem, tree.root, c, t);
    }
    if db != NULL {
      tree.Paint(db, false);
    }
  }

  lemma FinishDelete(m: Mem, root: Ptr, c: Ctx, t: Shape)
    requires Rep(m, root, c, t)
    ensures t.Node? ==> t.n.at in m
    ensures
      var m' := if t.Nil? then m else PutRed(m, t.n.at, false);
      Rep(m', root, Top, Plug(c, Blacken(t))) && SamePayload(m, m')
  {
    if t.Node? {
      Painted(m, root, c, t, false);
      RepWhole(PutRed(m, t.n.at, false), root, c, Blacken(t));
    } else {
      RepWhole(m, root, c, t);
    }
  }
}
