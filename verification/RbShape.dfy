/** Tree nodes, and the mathematics of red-black trees over them: whole trees, one-hole contexts and
    the laws of plugging one into the other (src/rbnode.h, src/rbtree.c). */
module RbShape {
  import opened EventSlots

  datatype Dir = Left | Right

  function Flip(d: Dir): Dir {
    if d == Left then Right else Left
  }

  /** An address; 0 is NULL. */
  type Ptr = nat

  const NULL: Ptr := 0

  /** rb_node.  Parent pointer and colour are separate fields. */
  datatype RbNode = RbNode(left: Ptr, right: Ptr, parent: Ptr, red: bool, fd: int, pollIdx: nat, slots: Slots)
  {
    function Child(d: Dir): Ptr { if d == Left then left else right }

    function WithChild(d: Dir, p: Ptr): RbNode {
      if d == Left then this.(left := p) else this.(right := p)
    }
  }

  type Mem = map<Ptr, RbNode>

  /** A node of a tree: where it lives and which descriptor it stands for. */
  datatype Id = Id(at: Ptr, fd: int)

  /** A tree as a value: which node sits where, and its colour. */
  datatype Shape = Nil | Node(left: Shape, n: Id, red: bool, right: Shape)

  /** A tree with a hole: the hole is child `d` of `n`, `sib` hangs on the other side. */
  datatype Ctx = Top | Up(d: Dir, n: Id, red: bool, sib: Shape, up: Ctx)

  predicate IsRed(t: Shape) { t.Node? && t.red }

  predicate CtxRed(c: Ctx) { c.Up? && c.red }

  function RootOf(t: Shape): Ptr { if t.Nil? then NULL else t.n.at }

  function ParentOf(c: Ctx): Ptr { if c.Top? then NULL else c.n.at }

  function Sub(t: Shape, d: Dir): Shape
    requires t.Node?
  {
    if d == Left then t.left else t.right
  }

  /** The node `n` with `a` on side `d` and `b` on the other side. */
  function Mk(d: Dir, a: Shape, n: Id, red: bool, b: Shape): Shape {
    if d == Left then Node(a, n, red, b) else Node(b, n, red, a)
  }

  function Blacken(t: Shape): Shape { if t.Nil? then Nil else t.(red := false) }

  function Plug(c: Ctx, t: Shape): Shape {
    if c.Top? then t else Plug(c.up, Mk(c.d, t, c.n, c.red, c.sib))
  }

  function Depth(c: Ctx): nat { if c.Top? then 0 else 1 + Depth(c.up) }

  // ---------- node sets and in-order sequences ----------

  ghost function Nodes(t: Shape): set<Ptr> {
    if t.Nil? then {} else Nodes(t.left) + {t.n.at} + Nodes(t.right)
  }

  ghost function CtxNodes(c: Ctx): set<Ptr> {
    if c.Top? then {} else {c.n.at} + Nodes(c.sib) + CtxNodes(c.up)
  }

  function InOrder(t: Shape): seq<Id> {
    if t.Nil? then [] else InOrder(t.left) + [t.n] + InOrder(t.right)
  }

  function Before(c: Ctx): seq<Id> {
    if c.Top? then []
    else if c.d == Left then Before(c.up)
    else Before(c.up) + (InOrder(c.sib) + [c.n])
  }

  function After(c: Ctx): seq<Id> {
    if c.Top? then []
    else if c.d == Left then ([c.n] + InOrder(c.sib)) + After(c.up)
    else After(c.up)
  }

  ghost predicate Distinct(t: Shape) {
    t.Node? ==>
      t.n.at !in Nodes(t.left) && t.n.at !in Nodes(t.right) && Nodes(t.left) !! Nodes(t.right)
      && Distinct(t.left) && Distinct(t.right)
  }

  ghost predicate DistinctCtx(c: Ctx) {
    c.Up? ==>
      c.n.at !in Nodes(c.sib) && c.n.at !in CtxNodes(c.up) && Nodes(c.sib) !! CtxNodes(c.up)
      && Distinct(c.sib) && DistinctCtx(c.up)
  }

  ghost predicate DistinctAt(c: Ctx, t: Shape) {
    Distinct(t) && DistinctCtx(c) && Nodes(t) !! CtxNodes(c)
  }

  predicate Sorted(s: seq<Id>) {
    forall i, j :: 0 <= i < j < |s| ==> s[i].fd < s[j].fd
  }

  ghost function Elems(s: seq<Id>): set<Ptr> { set x | x in s :: x.at }

  lemma {:induction false} NodesInOrder(t: Shape)
    ensures Nodes(t) == Elems(InOrder(t))
  {
    if t.Node? {
      NodesInOrder(t.left);
      NodesInOrder(t.right);
    }
  }

  lemma {:induction false} CtxNodesInOrder(c: Ctx)
    ensures CtxNodes(c) == Elems(Before(c)) + Elems(After(c))
  {
    if c.Up? {
      CtxNodesInOrder(c.up);
      NodesInOrder(c.sib);
    }
  }

  /** The whole in-order sequence, seen from a position. */
  function Spine(c: Ctx, t: Shape): seq<Id> { Before(c) + InOrder(t) + After(c) }

  /** Moving the focus one level up does not change the sequence. */
  lemma SpineUp(c: Ctx, t: Shape)
    requires c.Up?
    ensures Spine(c.up, Mk(c.d, t, c.n, c.red, c.sib)) == Spine(c, t)
  {
    if c.d == Left {
      assert InOrder(Mk(c.d, t, c.n, c.red, c.sib)) == InOrder(t) + ([c.n] + InOrder(c.sib));
    } else {
      assert InOrder(Mk(c.d, t, c.n, c.red, c.sib)) == (InOrder(c.sib) + [c.n]) + InOrder(t);
    }
  }

  /** Plugging puts the in-order sequence of the subtree between those of the context. */
  lemma {:induction false} PlugInOrder(c: Ctx, t: Shape)
    ensures InOrder(Plug(c, t)) == Before(c) + InOrder(t) + After(c) == Spine(c, t)
    decreases c
  {
    if c.Up? {
      PlugInOrder(c.up, Mk(c.d, t, c.n, c.red, c.sib));
      SpineUp(c, t);
    }
  }

  lemma {:induction false} PlugNodes(c: Ctx, t: Shape)
    ensures Nodes(Plug(c, t)) == CtxNodes(c) + Nodes(t)
    decreases c
  {
    if c.Up? {
      PlugNodes(c.up, Mk(c.d, t, c.n, c.red, c.sib));
    }
  }

  // ---------- balance ----------

  /** `t` has no red node with a red child, and every path to a leaf meets `h` black nodes. */
  predicate RB(t: Shape, h: int) {
    match t
    case Nil => h == 0
    case Node(l, _, red, r) =>
      if red then !IsRed(l) && !IsRed(r) && RB(l, h) && RB(r, h)
      else RB(l, h - 1) && RB(r, h - 1)
  }

  function BlackHeight(t: Shape): nat {
    if t.Nil? then 0 else BlackHeight(t.left) + if t.red then 0 else 1
  }

  lemma {:induction false} HeightUnique(t: Shape, h: int)
    requires RB(t, h)
    ensures h == BlackHeight(t)
  {
    if t.Node? {
      HeightUnique(t.left, if t.red then h else h - 1);
    }
  }

  /** The balance conditions of a red-black tree with a black root. */
  predicate Balanced(t: Shape) {
    !IsRed(t) && RB(t, BlackHeight(t))
  }

  /** The context can take any subtree of black height `h` (a black-rooted one below a red node). */
  predicate CtxOk(c: Ctx, h: int) {
    c.Up? ==>
      RB(c.sib, h) && CtxOk(c.up, if c.red then h else h + 1)
      && (c.red ==> !IsRed(c.sib) && !CtxRed(c.up))
  }

  function PlugHeight(c: Ctx, h: int): int {
    if c.Top? then h else PlugHeight(c.up, if c.red then h else h + 1)
  }

  lemma {:induction false} PlugRB(c: Ctx, t: Shape, h: int)
    requires CtxOk(c, h) && RB(t, h) && (CtxRed(c) ==> !IsRed(t))
    ensures RB(Plug(c, t), PlugHeight(c, h))
    decreases c
  {
    if c.Up? {
      PlugRB(c.up, Mk(c.d, t, c.n, c.red, c.sib), if c.red then h else h + 1);
    }
  }

  /** Conversely, the parts of a balanced tree are balanced. */
  lemma {:induction false} UnplugRB(c: Ctx, t: Shape, hh: int) returns (h: int)
    requires RB(Plug(c, t), hh)
    ensures CtxOk(c, h) && RB(t, h) && (CtxRed(c) ==> !IsRed(t)) && PlugHeight(c, h) == hh
    decreases c
  {
    if c.Top? {
      h := hh;
    } else {
      var h1 := UnplugRB(c.up, Mk(c.d, t, c.n, c.red, c.sib), hh);
      h := if c.red then h1 else h1 - 1;
    }
  }

  lemma RBNonNegative(t: Shape, h: int)
    requires RB(t, h)
    ensures h >= 0 && (h >= 1 && !IsRed(t) ==> t.Node?)
  {
  }

  predicate CtxTopRed(c: Ctx) {
    c.Up? && if c.up.Top? then c.red else CtxTopRed(c.up)
  }

  lemma {:induction false} PlugRootColour(c: Ctx, t: Shape)
    ensures IsRed(Plug(c, t)) == if c.Top? then IsRed(t) else CtxTopRed(c)
    decreases c
  {
    if c.Up? {
      PlugRootColour(c.up, Mk(c.d, t, c.n, c.red, c.sib));
    }
  }
}
