/** rb_extract (src/rbtree.c:188-252). */
module RbExtraction {
  import opened RbShape
  import opened RbLinks
  import opened RbTrees
  import opened RbInsertion
  import opened RbDeletion
  import opened RbSwaps

  // ---------- child links alone ----------

  /** Following child links from `r` yields exactly `t`; parent links are not looked at. */
  ghost predicate Down(m: Mem, r: Ptr, t: Shape)
    decreases t
  {
    r == RootOf(t)
    && (t.Node? ==>
          r != NULL && r in m && m[r].fd == t.n.fd && m[r].red == t.red
          && Down(m, m[r].left, t.left) && Down(m, m[r].right, t.right))
  }

  /** The child links determine the tree. */
  lemma {:induction false} DownUnique(m: Mem, r: Ptr, t: Shape, t': Shape)
    requires Down(m, r, t) && Down(m, r, t')
    ensures t == t'
    decreases t
  {
    if t.Node? && t'.Node? {
      DownUnique(m, m[r].left, t.left, t'.left);
      DownUnique(m, m[r].right, t.right, t'.right);
    }
  }

  lemma {:induction false} RepIsDown(m: Mem, root: Ptr, c: Ctx, t: Shape)
    requires Rep(m, root, c, t)
    ensures Down(m, RootOf(t), t)
    decreases t
  {
    LinkHolds(m, root, c, t);
    if t.Node? {
      RepDown(m, root, c, t, Left);
      RepDown(m, root, c, t, Right);
      RepIsDown(m, root, Up(Left, t.n, t.red, t.right, c), t.left);
      RepIsDown(m, root, Up(Right, t.n, t.red, t.left, c), t.right);
    }
  }

  lemma {:induction false} DownIgnoresParents(m: Mem, m': Mem, r: Ptr, t: Shape)
    requires Down(m, r, t) && m'.Keys == m.Keys
    requires forall x :: x in m ==> m'[x] == m[x].(parent := m'[x].parent)
    ensures Down(m', r, t)
    decreases t
  {
    if t.Node? {
      DownIgnoresParents(m, m', m[r].left, t.left);
      DownIgnoresParents(m, m', m[r].right, t.right);
    }
  }

  // ---------- swapping with the predecessor ----------

  function BelowRoot(c: Ctx, t: Shape): Ctx
    requires t.Node?
  {
    Up(Left, t.n, t.red, t.right, c)
  }

  lemma {:induction false} LastPlace(c: Ctx, l: Shape)
    requires l.Node?
    ensures PlaceOf(LastCtx(c, l)) == if l.right.Nil? then PlaceOf(c) else ChildRef(LastParent(l, ParentOf(c)), Right)
    decreases l
  {
    if l.right.Node? {
      LastPlace(Up(Right, l.n, l.red, l.left, c), l.right);
    }
  }

  /** predecessor: from the left child, right links to their end. */
  method Predecessor(tree: RbTree, node: Ptr, ghost c: Ctx, ghost t: Shape) returns (pred: Place)
    requires Rep(tree.mem, tree.root, c, t) && t.Node? && t.left.Node? && t.n.at == node
    ensures pred == PlaceOf(LastCtx(BelowRoot(c, t), t.left))
    ensures (pred.ChildRef? ==> pred.p in tree.mem) && tree.Load(pred) == LastOf(t.left).n.at
  {
    pred := ChildRef(node, Left);
    ghost var cc, l := BelowRoot(c, t), t.left;
    RepDown(tree.mem, tree.root, c, t, Left);
    LinkHolds(tree.mem, tree.root, cc, l);
    while tree.mem[tree.Load(pred)].right != NULL
      invariant Rep(tree.mem, tree.root, cc, l) && l.Node? && pred == PlaceOf(cc)
      invariant (pred.ChildRef? ==> pred.p in tree.mem) && tree.Load(pred) == l.n.at && l.n.at in tree.mem
      invariant tree.mem[l.n.at].right == RootOf(l.right) && (l.right.Node? <==> RootOf(l.right) != NULL)
      invariant LastCtx(cc, l) == LastCtx(BelowRoot(c, t), t.left) && LastOf(l) == LastOf(t.left)
      decreases l
    {
      pred := ChildRef(tree.Load(pred), Right);
      RepDown(tree.mem, tree.root, cc, l, Right);
      cc, l := Up(Right, l.n, l.red, l.left, cc), l.right;
      LinkHolds(tree.mem, tree.root, cc, l);
      RightIsNull(tree.mem, tree.root, cc, l);
    }
  }

  lemma RightIsNull(m: Mem, root: Ptr, c: Ctx, t: Shape)
    requires Rep(m, root, c, t) && t.Node?
    ensures t.right.Node? <==> RootOf(t.right) != NULL
    ensures t.left.Node? <==> RootOf(t.left) != NULL
  {
  }

  /** Lines 196-236. */
  method Exchange(tree: RbTree, curr: Ptr, pred: Ptr, place: Place, predLoc: Place, parent: Ptr, ghost a: Neighbours)
    requires PtrsOk(tree.mem, a, place) && curr == a.curr && pred == a.pred
    requires a.l != a.pred ==> predLoc == ChildRef(a.pp, Right)
    modifies tree
    ensures tree.mem == SwapMem(old(tree.mem), a, place, parent)
    ensures tree.root == if place.RootRef? then pred else old(tree.root)
  {
    var near := tree.mem[curr].left == pred;
    tree.mem := SwapColours(tree.mem, pred, curr);
    if place.RootRef? {
      tree.root := pred;
    }
    if near {
      tree.mem := NearSwap(tree.mem, curr, pred, place, parent);
    } else {
      tree.mem := FarSwap(tree.mem, curr, pred, place, parent, predLoc.p);
    }
    tree.mem := RightSwap(tree.mem, curr, pred);
  }

  /** Lines 193-236. */
  method SwapWithPredecessor(tree: RbTree, curr: Ptr, place: Place, parent: Ptr, ghost c: Ctx, ghost t: Shape)
    returns (pred: Ptr)
    requires Rep(tree.mem, tree.root, c, t) && TwoChildren(t) && t.n.at == curr
    requires place == PlaceOf(c) && parent == ParentOf(c)
    modifies tree
    ensures pred == LastOf(t.left).n.at
    ensures Rep(tree.mem, tree.root, c, Swapped(t)) && SamePayload(old(tree.mem), tree.mem)
  {
    SwapRep(tree.mem, tree.root, c, t);
    LastPlace(BelowRoot(c, t), t.left);
    NearIff(t.left);
    var predLoc := Predecessor(tree, curr, c, t);
    pred := tree.Load(predLoc);
    Exchange(tree, curr, pred, place, predLoc, parent, NeighboursOf(t));
  }

  lemma NearIff(l: Shape)
    requires l.Node?
    ensures LastOf(l) == l <==> l.right.Nil?
  {
  }

  /** Searching for the swapped-down node's descriptor always goes right until it is found. */
  lemma {:induction false} ProbeSwapped(c: Ctx, l: Shape, n: Id)
    requires l.Node? && forall x :: x in InOrder(l) ==> x.fd < n.fd
    ensures ProbeTo(c, WithLast(l, Demoted(l, n)), n.fd) == (LastCtx(c, l), Demoted(l, n))
    decreases l
  {
    InOrderElems(l);
    if l.right.Node? {
      assert Demoted(l.right, n) == Demoted(l, n);
      ProbeSwapped(Up(Right, l.n, l.red, l.left, c), l.right, n);
    }
  }

  // ---------- unlinking a node with at most one child ----------

  predicate AtMostOneChild(t: Shape) { t.Node? && (t.left.Nil? || t.right.Nil?) }

  function SonOf(t: Shape): Shape
    requires t.Node?
  {
    if t.left.Node? then t.left else t.right
  }

  function UnhookMem(m: Mem, place: Place, son: Ptr, parent: Ptr): Mem
    requires (place.ChildRef? ==> place.p in m) && (son != NULL ==> son in m)
  {
    PutParentIf(PutLink(m, place, son), son, parent)
  }

  lemma UnhookRep(m: Mem, root: Ptr, c: Ctx, t: Shape)
    requires Rep(m, root, c, t) && AtMostOneChild(t)
    ensures c.Up? ==> c.n.at in m
    ensures SonOf(t).Node? ==> SonOf(t).n.at in m && SonOf(t).n.at != NULL
    ensures
      var s := SonOf(t);
      var m' := UnhookMem(m, PlaceOf(c), RootOf(s), ParentOf(c));
      Rep(m', if c.Top? then RootOf(s) else root, c, s) && SamePayload(m, m')
  {
    var s := SonOf(t);
    assert s.Node? ==> s.n.at in Nodes(s);
    assert Nodes(s) <= Nodes(t) && t.n.at !in Nodes(s) && Distinct(s);
    LinkHolds(m, root, c, t);
    if c.Up? {
      CtxFacts(m, root, c, t);
    }
    var m' := UnhookMem(m, PlaceOf(c), RootOf(s), ParentOf(c));
    HoleFilled(m, m', c, t.n.at, RootOf(s));
    forall x | x in Nodes(s)
      ensures x in m' && CellOf(m'[x]) == CellAt(s, ParentOf(c), x)
    {
      assert CellAt(t, ParentOf(c), x) == CellAt(s, t.n.at, x);
      assert c.Up? ==> x != c.n.at;
      ParentAtRoot(s, t.n.at, ParentOf(c), x);
    }
  }

  lemma ParentAtRoot(t: Shape, p: Ptr, q: Ptr, x: Ptr)
    requires x in Nodes(t)
    ensures CellAt(t, q, x) == if x == t.n.at then CellAt(t, p, x).(parent := q) else CellAt(t, p, x)
  {
  }

  lemma UnhookBalance(t: Shape, h: int)
    requires AtMostOneChild(t) && RB(t, h)
    ensures t.red ==> SonOf(t).Nil? && h == 0
    ensures !t.red ==> Short(SonOf(t), h - 1)
  {
    var s := SonOf(t);
    if t.red {
      RBNonNegative(s, h);
      assert h == 0;
      if s.Node? {
        RBNonNegative(s.left, -1);
        assert false;
      }
    }
  }

  /** The whole tree after the root of `t` has been unlinked at the position `c`. */
  ghost function Removed(c: Ctx, t: Shape): Shape
    requires AtMostOneChild(t) && RB(t, BlackHeight(t)) && CtxOk(c, BlackHeight(t))
  {
    UnhookBalance(t, BlackHeight(t));
    if t.red then Plug(c, Nil) else DelFixed(c, SonOf(t), BlackHeight(t) - 1)
  }

  lemma BalancedParts(c: Ctx, t: Shape)
    requires Balanced(Plug(c, t))
    ensures RB(t, BlackHeight(t)) && CtxOk(c, BlackHeight(t)) && (CtxRed(c) ==> !IsRed(t)) && !CtxTopRed(c)
    ensures c.Top? ==> !IsRed(t)
    ensures PlugHeight(c, BlackHeight(t)) == BlackHeight(Plug(c, t))
  {
    var h := UnplugRB(c, t, BlackHeight(Plug(c, t)));
    HeightUnique(t, h);
    PlugRootColour(c, t);
  }

  lemma RemovedValid(c: Ctx, t: Shape)
    requires Balanced(Plug(c, t)) && AtMostOneChild(t)
    ensures RB(t, BlackHeight(t)) && CtxOk(c, BlackHeight(t))
    ensures Balanced(Removed(c, t)) && InOrder(Removed(c, t)) == Spine(c, SonOf(t))
  {
    var h := BlackHeight(t);
    BalancedParts(c, t);
    UnhookBalance(t, h);
    if t.red {
      PlugRB(c, Nil, 0);
      PlugRootColour(c, Nil);
      HeightUnique(Plug(c, Nil), PlugHeight(c, 0));
      PlugInOrder(c, Nil);
    } else {
      DelFixedBalanced(c, SonOf(t), h - 1);
      DelFixedInOrder(c, SonOf(t), h - 1);
    }
  }

  // ---------- the whole operation on trees ----------

  lemma {:induction false} WithLastRB(l: Shape, s: Shape, h: int)
    requires l.Node? && s.Node? && s.red == LastOf(l).red && s.left == LastOf(l).left && s.right.Nil?
    ensures RB(WithLast(l, s), h) == RB(l, h) && IsRed(WithLast(l, s)) == IsRed(l)
    decreases l
  {
    if l.right.Node? {
      WithLastRB(l.right, s, h);
      WithLastRB(l.right, s, h - 1);
    }
  }

  lemma SwappedBalanced(c: Ctx, t: Shape)
    requires TwoChildren(t) && Balanced(Plug(c, t))
    ensures Balanced(Plug(c, Swapped(t)))
  {
    var h := BlackHeight(t);
    BalancedParts(c, t);
    WithLastRB(t.left, Demoted(t.left, t.n), if t.red then h else h - 1);
    PlugRB(c, Swapped(t), h);
    PlugRootColour(c, t);
    PlugRootColour(c, Swapped(t));
    HeightUnique(Plug(c, Swapped(t)), PlugHeight(c, h));
  }

  /** The position of the node that is finally unlinked, and its subtree. */
  function TargetCtx(c: Ctx, t: Shape): Ctx
    requires t.Node?
  {
    if TwoChildren(t) then LastCtx(BelowRoot(c, Swapped(t)), t.left) else c
  }

  function Target(t: Shape): Shape
    requires t.Node?
  {
    if TwoChildren(t) then Demoted(t.left, t.n) else t
  }

  lemma TargetBalanced(c: Ctx, t: Shape)
    requires t.Node? && Balanced(Plug(c, t))
    ensures AtMostOneChild(Target(t)) && Balanced(Plug(TargetCtx(c, t), Target(t)))
  {
    if TwoChildren(t) {
      SwappedBalanced(c, t);
      LastPlug(BelowRoot(c, Swapped(t)), t.left, Demoted(t.left, t.n));
    }
  }

  lemma TargetSpine(c: Ctx, t: Shape)
    requires t.Node?
    ensures Spine(TargetCtx(c, t), SonOf(Target(t))) == Before(c) + (InOrder(t.left) + InOrder(t.right)) + After(c)
  {
    if TwoChildren(t) {
      var s := LastOf(t.left).left;
      assert SonOf(Target(t)) == s;
      LastPlug(BelowRoot(c, Swapped(t)), t.left, s);
      PlugInOrder(TargetCtx(c, t), s);
      var w := Node(WithLast(t.left, s), LastOf(t.left).n, t.red, t.right);
      PlugInOrder(c, w);
      LastInOrder(t.left);
      assert InOrder(w) == InOrder(t.left) + InOrder(t.right);
    } else {
      assert InOrder(SonOf(t)) == InOrder(t.left) + InOrder(t.right);
    }
  }

  /** The tree that rb_extract should leave. */
  ghost function Extracted(c: Ctx, t: Shape): Shape
    requires t.Node? && Balanced(Plug(c, t))
  {
    TargetBalanced(c, t);
    BalancedParts(TargetCtx(c, t), Target(t));
    Removed(TargetCtx(c, t), Target(t))
  }

  /** That tree is a red-black tree over the remaining nodes, each in its old order. */
  lemma ExtractedValid(c: Ctx, t: Shape)
    requires t.Node? && Balanced(Plug(c, t)) && Sorted(InOrder(Plug(c, t)))
    ensures Balanced(Extracted(c, t)) && Sorted(InOrder(Extracted(c, t)))
    ensures InOrder(Plug(c, t)) == Before(c) + (InOrder(t.left) + [t.n] + InOrder(t.right)) + After(c)
    ensures InOrder(Extracted(c, t)) == Before(c) + (InOrder(t.left) + InOrder(t.right)) + After(c)
  {
    TargetBalanced(c, t);
    RemovedValid(TargetCtx(c, t), Target(t));
    TargetSpine(c, t);
    PlugInOrder(c, t);
    SortedWithout(Before(c), InOrder(t.left), t.n, InOrder(t.right), After(c));
  }

  lemma SortedWithout(a: seq<Id>, l: seq<Id>, n: Id, r: seq<Id>, b: seq<Id>)
    requires Sorted(a + (l + [n] + r) + b)
    ensures Sorted(a + (l + r) + b)
  {
    assert a + (l + [n] + r) + b == (a + l) + [n] + (r + b);
    assert a + (l + r) + b == (a + l) + (r + b);
    SortedRemove(a + l, n, r + b);
  }

  lemma SortedRemove(a: seq<Id>, n: Id, b: seq<Id>)
    ensures Sorted(a + [n] + b) ==> Sorted(a + b)
  {
    var s, s' := a + b, a + [n] + b;
    if Sorted(s') {
      forall i, j | 0 <= i < j < |s|
        ensures s[i].fd < s[j].fd
      {
        var i', j' := if i < |a| then i else i + 1, if j < |a| then j else j + 1;
        assert s[i] == s'[i'] && s[j] == s'[j'];
      }
    }
  }

  // ---------- the case in which the parent is lost ----------

  /** A node with two children whose predecessor is its own left child, and that child is black. */
  predicate LosesParent(t: Shape) {
    TwoChildren(t) && t.left.right.Nil? && !t.left.red
  }

  /** The smallest such tree: three black nodes, of which the root is to be removed. */
  lemma LosesParentExample()
    ensures
      var t := Node(Node(Nil, Id(2, 5), false, Nil), Id(1, 10), false, Node(Nil, Id(3, 15), false, Nil));
      Balanced(t) && Sorted(InOrder(t)) && LosesParent(t)
  {
    var l, r := Node(Nil, Id(2, 5), false, Nil), Node(Nil, Id(3, 15), false, Nil);
    assert RB(l, 1) && RB(r, 1) && BlackHeight(l) == 1;
    assert InOrder(l) == [Id(2, 5)] && InOrder(r) == [Id(3, 15)];
  }

  /** Memory after lines 245-249 when `parent` is NULL although the place is a child link. */
  function LostMem(m: Mem, place: Place, son: Ptr): Mem
    requires (place.ChildRef? ==> place.p in m) && (son != NULL ==> son in m)
  {
    var m1 := UnhookMem(m, place, son, NULL);
    if son == NULL then m1 else PutRed(m1, son, false)
  }

  /** The tree one then finds by following child links. */
  function LostShape(c: Ctx, t: Shape): Shape
    requires t.Node? && t.left.Node?
  {
    Plug(c, Node(Blacken(t.left.left), t.left.n, t.red, t.right))
  }

  lemma LostDown(m: Mem, root: Ptr, c: Ctx, t: Shape)
    requires LosesParent(t) && Rep(m, root, BelowRoot(c, Swapped(t)), Demoted(t.left, t.n))
    ensures t.left.n.at in m && (t.left.left.Node? ==> t.left.left.n.at in m && t.left.left.n.at != NULL)
    ensures Down(LostMem(m, ChildRef(t.left.n.at, Left), RootOf(t.left.left)), root, LostShape(c, t))
  {
    var c1, d, s := BelowRoot(c, Swapped(t)), Demoted(t.left, t.n), t.left.left;
    UnhookRep(m, root, c1, d);
    var m1 := UnhookMem(m, PlaceOf(c1), RootOf(s), ParentOf(c1));
    FinishDelete(m1, root, c1, s);
    var m2 := if s.Nil? then m1 else PutRed(m1, s.n.at, false);
    assert Plug(c1, Blacken(s)) == LostShape(c, t);
    RepIsDown(m2, root, Top, LostShape(c, t));
    assert root == RootOf(LostShape(c, t));
    DownIgnoresParents(m2, LostMem(m, ChildRef(t.left.n.at, Left), RootOf(s)), root, LostShape(c, t));
  }

  /** No red-black tree with consistent parent links is left in memory. */
  lemma LostInvalid(m: Mem, root: Ptr, c: Ctx, t: Shape, w: Shape)
    requires LosesParent(t) && Balanced(Plug(c, t)) && Down(m, root, LostShape(c, t))
    requires t.left.left.Node? ==> t.left.left.n.at in m && m[t.left.left.n.at].parent == NULL
    requires t.left.n.at != NULL
    ensures !(Rep(m, root, Top, w) && Balanced(w))
  {
    if Rep(m, root, Top, w) && Balanced(w) {
      RepIsDown(m, root, Top, w);
      DownUnique(m, root, w, LostShape(c, t));
      if t.left.left.Node? {
        LostParentLink(m, root, c, t);
      } else {
        LostBalance(c, t);
      }
    }
  }

  lemma LostParentLink(m: Mem, root: Ptr, c: Ctx, t: Shape)
    requires LosesParent(t) && t.left.left.Node? && Rep(m, root, Top, LostShape(c, t))
    ensures t.left.left.n.at in m && m[t.left.left.n.at].parent == t.left.n.at
  {
    var s := Blacken(t.left.left);
    var p := Node(s, t.left.n, t.red, t.right);
    RepSplit(m, root, c, p);
    RepDown(m, root, c, p, Left);
    CtxFacts(m, root, Up(Left, p.n, p.red, p.right, c), s);
  }

  lemma {:induction false} RepSplit(m: Mem, root: Ptr, c: Ctx, t: Shape)
    requires Rep(m, root, Top, Plug(c, t))
    ensures Rep(m, root, c, t)
    decreases c
  {
    if c.Up? {
      var p := Mk(c.d, t, c.n, c.red, c.sib);
      RepSplit(m, root, c.up, p);
      assert Sub(p, c.d) == t && Sub(p, Flip(c.d)) == c.sib;
      RepDown(m, root, c.up, p, c.d);
    }
  }

  lemma LostBalance(c: Ctx, t: Shape)
    requires LosesParent(t) && t.left.left.Nil? && Balanced(Plug(c, t))
    ensures !Balanced(LostShape(c, t))
  {
    if Balanced(LostShape(c, t)) {
      var c1 := BelowRoot(c, t);
      assert Plug(c1, t.left) == Plug(c, t);
      BalancedParts(c1, t.left);
      HeightUnique(t.right, 1);
      var c2 := Up(Left, t.left.n, t.red, t.right, c);
      assert Plug(c2, Nil) == LostShape(c, t);
      BalancedParts(c2, Nil);
      HeightUnique(t.right, 0);
    }
  }

  lemma LostInOrder(c: Ctx, t: Shape)
    requires LosesParent(t)
    ensures InOrder(LostShape(c, t)) == Before(c) + (InOrder(t.left) + InOrder(t.right)) + After(c)
  {
    var p := Node(Blacken(t.left.left), t.left.n, t.red, t.right);
    PlugInOrder(c, p);
    assert InOrder(Blacken(t.left.left)) == InOrder(t.left.left);
    assert InOrder(p) == InOrder(t.left) + InOrder(t.right);
  }

  // ---------- the code ----------

  /** Lines 242-249.  `regular` says that `parent` is the parent of the place, or not needed: a red node
      with at most one child has none. */
  method Unhook(tree: RbTree, curr: Ptr, place: Place, parent: Ptr, ghost regular: bool, ghost c: Ctx, ghost t: Shape)
    requires Rep(tree.mem, tree.root, c, t) && AtMostOneChild(t) && curr == t.n.at && place == PlaceOf(c)
    requires RB(t, BlackHeight(t)) && CtxOk(c, BlackHeight(t))
    requires if regular then parent == ParentOf(c) || t.red else c.Up? && parent == NULL && !t.red
    modifies tree
    ensures regular ==> Rep(tree.mem, tree.root, Top, Removed(c, t)) && SamePayload(old(tree.mem), tree.mem)
    ensures !regular ==>
      c.n.at in old(tree.mem) && (SonOf(t).Node? ==> SonOf(t).n.at in old(tree.mem))
      && tree.mem == LostMem(old(tree.mem), place, RootOf(SonOf(t))) && tree.root == old(tree.root)
  {
    LinkHolds(tree.mem, tree.root, c, t);
    RightIsNull(tree.mem, tree.root, c, t);
    UnhookRep(tree.mem, tree.root, c, t);
    UnhookBalance(t, BlackHeight(t));
    var son := if tree.mem[curr].left != NULL then tree.mem[curr].left else tree.mem[curr].right;
    var wasRed := tree.mem[curr].red;
    if place.RootRef? {
      tree.root := son;
    }
    tree.mem := UnhookMem(tree.mem, place, son, parent);
    if !wasRed {
      FixDelete(tree, son, parent, regular, c, SonOf(t), BlackHeight(t) - 1);
    } else {
      RepWhole(tree.mem, tree.root, c, Nil);
    }
  }

  /** Lines 192-240: find the place at which `curr` is to be unlinked, and the parent the code believes
      that place to have. */
  method Locate(tree: RbTree, curr: Ptr, place0: Place, parent0: Ptr, ghost c: Ctx, ghost t: Shape)
    returns (place: Place, parent: Ptr)
    requires Rep(tree.mem, tree.root, c, t) && t.Node? && t.n.at == curr
    requires place0 == PlaceOf(c) && parent0 == ParentOf(c) && Sorted(InOrder(Plug(c, t)))
    modifies tree
    ensures Rep(tree.mem, tree.root, TargetCtx(c, t), Target(t)) && SamePayload(old(tree.mem), tree.mem)
    ensures place == PlaceOf(TargetCtx(c, t))
    ensures parent == if TwoChildren(t) && t.left.right.Nil? then NULL else ParentOf(TargetCtx(c, t))
  {
    place, parent := place0, parent0;
    LinkHolds(tree.mem, tree.root, c, t);
    RightIsNull(tree.mem, tree.root, c, t);
    var fd := tree.mem[curr].fd;
    if tree.mem[curr].left != NULL && tree.mem[curr].right != NULL {
      SmallerLeft(c, t);
      ghost var l, sw := t.left, Swapped(t);
      ghost var c1 := BelowRoot(c, sw);
      ProbeSwapped(c1, l, t.n);
      var pred := SwapWithPredecessor(tree, curr, place, parent, c, t);
      RepDown(tree.mem, tree.root, c, sw, Left);
      ghost var c2, t2;
      place, parent, c2, t2 := tree.Probe(ChildRef(pred, Left), fd, c1, sw.left);
      DemotedDiffers(l, t.n);
    }
  }

  lemma SmallerLeft(c: Ctx, t: Shape)
    requires t.Node? && Sorted(InOrder(Plug(c, t)))
    ensures forall x :: x in InOrder(t.left) ==> x.fd < t.n.fd
  {
    PlugInOrder(c, t);
    SortedAround(Before(c), InOrder(t.left), t.n, InOrder(t.right), After(c));
  }

  lemma DemotedDiffers(l: Shape, n: Id)
    requires l.Node?
    ensures WithLast(l, Demoted(l, n)) == Demoted(l, n) <==> l.right.Nil?
  {
  }

  lemma LostOutcome(m: Mem, root: Ptr, c: Ctx, t: Shape)
    requires LosesParent(t) && Balanced(Plug(c, t)) && Rep(m, root, TargetCtx(c, t), Target(t))
    ensures t.left.n.at in m && (t.left.left.Node? ==> t.left.left.n.at in m)
    ensures
      var m' := LostMem(m, PlaceOf(TargetCtx(c, t)), RootOf(SonOf(Target(t))));
      Down(m', root, LostShape(c, t)) && SamePayload(m, m')
      && forall w :: !(Rep(m', root, Top, w) && Balanced(w))
  {
    LostDown(m, root, c, t);
    CtxFacts(m, root, TargetCtx(c, t), Target(t));
    var m' := LostMem(m, ChildRef(t.left.n.at, Left), RootOf(t.left.left));
    forall w
      ensures !(Rep(m', root, Top, w) && Balanced(w))
    {
      LostInvalid(m', root, c, t, w);
    }
  }

  /** rb_extract.  In every case the requested node is returned, the child links lead through the other
      nodes in their old order, and every node keeps its payload.  A red-black tree with consistent parent
      links is left if and only if the node did not have a black left child without right child as its
      predecessor. */
  method Extract(tree: RbTree, place0: Place, parent0: Ptr, ghost c: Ctx, ghost t: Shape)
    returns (node: Ptr, ghost w: Shape)
    requires Rep(tree.mem, tree.root, c, t) && t.Node? && place0 == PlaceOf(c) && parent0 == ParentOf(c)
    requires Balanced(Plug(c, t)) && Sorted(InOrder(Plug(c, t)))
    modifies tree
    ensures node == t.n.at && SamePayload(old(tree.mem), tree.mem)
    ensures Down(tree.mem, tree.root, w)
    ensures InOrder(w) == Before(c) + (InOrder(t.left) + InOrder(t.right)) + After(c)
    ensures !LosesParent(t) ==> w == Extracted(c, t) && Rep(tree.mem, tree.root, Top, w) && Balanced(w)
    ensures LosesParent(t) ==> forall w' :: !(Rep(tree.mem, tree.root, Top, w') && Balanced(w'))
  {
    LinkHolds(tree.mem, tree.root, c, t);
    var curr := tree.Load(place0);
    ExtractedValid(c, t);
    TargetBalanced(c, t);
    BalancedParts(TargetCtx(c, t), Target(t));
    var place, parent := Locate(tree, curr, place0, parent0, c, t);
    ghost var m1, r1 := tree.mem, tree.root;
    ghost var regular := !LosesParent(t);
    ghost var c1, t1 := TargetCtx(c, t), Target(t);
    Unhook(tree, curr, place, parent, regular, c1, t1);
    node := curr;
    if regular {
      w := Extracted(c, t);
      RepIsDown(tree.mem, tree.root, Top, w);
    } else {
      LostOutcome(m1, r1, c, t);
      LostInOrder(c, t);
      w := LostShape(c, t);
    }
  }
}
