/** iosvc_enqueue, iosvc_sched_timeout, iosvc_dequeue and ioevt_cleanup_evt on the real structures
    (src/iosvc_sched.c, src/iosvc_dequeue.c, src/async_heap_entry.c). */
module Registry {
  import opened IoTypes
  import opened EventSlots
  import opened RbShape
  import opened RbLinks
  import opened RbTrees
  import opened RbInsertion
  import opened RbSwaps
  import opened RbExtraction
  import opened DeadlineHeap
  import opened IoModel
  import opened RegistryRep
  import opened RegistryOps
  import StopWalk

  /** Inserting a node for `fd` does not start its fix-up with a mixed rotation. */
  predicate InsertHarmless(shape: Shape, fd: int) {
    var (c, t) := ProbeTo(Top, shape, fd);
    t.Nil? ==> !MixedFirst(c)
  }

  /** The tree after scheduling on `fd`, `p` being the address of a node that has to be made. */
  ghost function ShapeWith(shape: Shape, fd: int, p: Ptr): Shape {
    var (c, t) := ProbeTo(Top, shape, fd);
    if t.Nil? then Inserted(c, Id(p, fd)) else shape
  }

  /** Every node of `a`, other than one for `but`, is in `b` at the same address; where one goes, none comes. */
  ghost predicate KeepsNodes(a: Shape, b: Shape, but: Option<int>) {
    (forall n :: n in InOrder(a) && Some(n.fd) != but ==> n in InOrder(b))
    && (but.Some? ==> |InOrder(b)| <= |InOrder(a)|)
  }

  lemma InsertedKeeps(shape: Shape, c: Ctx, n: Id)
    requires Plug(c, Nil) == shape && Balanced(shape) && Sorted(InOrder(shape)) && Brackets(c, n.fd)
    ensures KeepsNodes(shape, Inserted(c, n), None)
  {
    InsertedValid(c, n);
  }

  lemma ExtractedKeeps(shape: Shape, c: Ctx, t: Shape)
    requires t.Node? && Plug(c, t) == shape && Balanced(shape) && Sorted(InOrder(shape))
    ensures KeepsNodes(shape, Extracted(c, t), Some(t.n.fd))
  {
    ExtractedValid(c, t);
  }

  lemma ElemsCat(a: seq<Id>, b: seq<Id>)
    ensures Elems(a + b) == Elems(a) + Elems(b)
  {
  }

  /** rb_probe from the root finds the node for `fd`, or the place for one. */
  lemma ProbeFromRoot(m: Mem, root: Ptr, shape: Shape, fd: int)
    requires TreeOk(m, root, shape)
    ensures
      var (c, t) := ProbeTo(Top, shape, fd);
      Plug(c, t) == shape && Brackets(c, fd) && (t.Node? ==> t.n.fd == fd)
      && (t.Node? <==> exists i :: i in InOrder(shape) && i.fd == fd)
  {
    assert Before(Top) + InOrder(shape) + After(Top) == InOrder(shape);
    ProbeFinds(Top, shape, fd);
  }

  lemma FdsInTree(m: Mem, root: Ptr, shape: Shape, fd: int)
    requires TreeOk(m, root, shape)
    ensures (exists i :: i in InOrder(shape) && i.fd == fd) <==> exists x :: x in m && m[x].fd == fd
  {
    NodesInOrder(shape);
    forall i | i in InOrder(shape)
      ensures i.at in m && m[i.at].fd == i.fd
    {
      FdAt(shape, NULL, i);
      assert CellOf(m[i.at]) == CellAt(shape, NULL, i.at);
    }
    forall x | x in m
      ensures exists i :: i in InOrder(shape) && i.at == x
    {
      assert x in Elems(InOrder(shape));
    }
  }

  lemma {:induction false} FdAt(t: Shape, p: Ptr, i: Id)
    requires i in InOrder(t) && Distinct(t)
    ensures i.at in Nodes(t) && CellAt(t, p, i.at).fd == i.fd
  {
    NodesInOrder(t);
    NodesInOrder(t.left);
    NodesInOrder(t.right);
    InOrderElems(t);
    if i in InOrder(t.left) {
      FdAt(t.left, t.n.at, i);
    } else if i in InOrder(t.right) {
      FdAt(t.right, t.n.at, i);
    }
  }

  lemma NodesOf(t: Shape, s: seq<Id>)
    requires InOrder(t) == s
    ensures Nodes(t) == Elems(s)
  {
    NodesInOrder(t);
  }

  lemma InsertedNodes(t: Shape, t': Shape, a: seq<Id>, n: Id, b: seq<Id>)
    requires InOrder(t) == a + b && InOrder(t') == a + [n] + b
    ensures Nodes(t') == Nodes(t) + {n.at}
  {
    NodesOf(t, a + b);
    NodesOf(t', a + [n] + b);
    ElemsCat(a, b);
    ElemsCat(a, [n]);
    ElemsCat(a + [n], b);
    assert n in [n];
  }

  lemma InsertedTreeOk(m: Mem, m': Mem, root: Ptr, root': Ptr, shape: Shape, c: Ctx, n: Id)
    requires TreeOk(m, root, shape) && Plug(c, Nil) == shape && Brackets(c, n.fd)
    requires Rep(m', root', Top, Inserted(c, n)) && m'.Keys == m.Keys + {n.at}
    ensures TreeOk(m', root', Inserted(c, n))
  {
    InsertedValid(c, n);
    InsertedNodes(shape, Inserted(c, n), Before(c), n, After(c));
  }

  lemma ExtractedNodes(c: Ctx, t: Shape, w: Shape)
    requires t.Node? && DistinctAt(c, t)
    requires InOrder(w) == Before(c) + (InOrder(t.left) + InOrder(t.right)) + After(c)
    ensures Nodes(w) == Nodes(Plug(c, t)) - {t.n.at}
  {
    NodesOf(w, Before(c) + (InOrder(t.left) + InOrder(t.right)) + After(c));
    NodesInOrder(t.left);
    NodesInOrder(t.right);
    CtxNodesInOrder(c);
    PlugNodes(c, t);
    ElemsCat(Before(c), InOrder(t.left) + InOrder(t.right));
    ElemsCat(InOrder(t.left), InOrder(t.right));
    ElemsCat(Before(c) + (InOrder(t.left) + InOrder(t.right)), After(c));
    assert t.n.at !in CtxNodes(c);
  }

  lemma ExtractedTreeOk(m: Mem, m': Mem, root: Ptr, root': Ptr, shape: Shape, c: Ctx, t: Shape)
    requires TreeOk(m, root, shape) && t.Node? && Plug(c, t) == shape && DistinctAt(c, t)
    requires Rep(m', root', Top, Extracted(c, t)) && m'.Keys == m.Keys
    ensures TreeOk(m' - {t.n.at}, root', Extracted(c, t))
  {
    var w := Extracted(c, t);
    ExtractedValid(c, t);
    ExtractedNodes(c, t, w);
    RepFrame(m', m' - {t.n.at}, root', Top, w);
  }

  /** The remaining time that iosvc_dequeue reports for a timed event. */
  function RemainingOf(io: IoState, k: Key, now: int): Option<int> {
    var j := FindTimer(io.timed, k);
    if j < |io.timed| then Some(RemainingAt(io.timed[j].deadline, now)) else None
  }

  /** The part of struct io_service that deals with descriptors. */
  class Service {
    const tree: RbTree
    var pollfds: seq<PollFd>
    var timed: Timed

    // the represented state, the shape of the tree, and the node of each poll entry
    ghost var io: IoState
    ghost var shape: Shape
    ghost var owner: seq<Ptr>

    ghost predicate Valid()
      reads this, tree
    {
      Represents(tree.mem, tree.root, shape, pollfds, owner, timed, io)
    }

    lemma Unfold()
      requires Valid()
      ensures Represents(tree.mem, tree.root, shape, pollfds, owner, timed, io)
    {
    }

    lemma Fold()
      requires Represents(tree.mem, tree.root, shape, pollfds, owner, timed, io)
      ensures Valid()
    {
    }

    /** iosvc_create */
    constructor ()
      ensures Valid() && fresh(tree) && io == Idle && shape == Nil
    {
      tree := new RbTree();
      pollfds, timed := [], [];
      io, shape, owner := Idle, Nil, [];
      new;
      assert Events(tree.mem) == map[];
    }

    // ---------- the deadline heap with back-indices ----------

    /** async_hp_ent_swp */
    method SwapTimed(i: nat, j: nat, ghost gone: Option<Evt>, ghost m0: Mem)
      requires i < |timed| && j < |timed| && HeapLinked(Events(tree.mem), timed, gone) && SameButIdx(m0, tree.mem)
      modifies this`timed, tree`mem
      ensures timed == Swap(old(timed), i, j) && HeapLinked(Events(tree.mem), timed, gone)
      ensures SameButIdx(m0, tree.mem)
    {
      SwapLinked(tree.mem, timed, i, j, gone);
      ghost var m1 := tree.mem;
      timed := Swap(timed, i, j);
      tree.mem := SwapIdx(tree.mem, EvtOf(timed[i].item), EvtOf(timed[j].item));
      SameTransitive(m0, m1, tree.mem);
    }

    /** heap_sift_up_idx with async_hp_ent_lt and async_hp_ent_swp */
    method SiftUpTimed(idx0: nat, ghost m0: Mem)
      requires idx0 < |timed| && HeapLinked(Events(tree.mem), timed, None) && SameButIdx(m0, tree.mem)
      modifies this`timed, tree`mem
      ensures timed == SiftUp(old(timed), idx0) && HeapLinked(Events(tree.mem), timed, None)
      ensures SameButIdx(m0, tree.mem)
    {
      var idx: nat := idx0;
      while idx != 0
        invariant idx < |timed| && SiftUp(timed, idx) == SiftUp(old(timed), idx0)
        invariant HeapLinked(Events(tree.mem), timed, None) && SameButIdx(m0, tree.mem)
      {
        var parent := UpIdx(idx);
        if timed[idx].deadline < timed[parent].deadline {
          SwapTimed(idx, parent, None, m0);
          idx := parent;
        } else {
          break;
        }
      }
    }

    /** Lines 38-61 of heaputils.c: the smaller child, if it is smaller than the entry itself. */
    method SmallestAround(idx: nat) returns (minIdx: nat)
      requires idx < |timed|
      ensures minIdx == MinChild(timed, idx)
    {
      minIdx := idx;
      var leftIdx := LeftIdx(idx);
      if leftIdx >= |timed| {
        return;
      }
      if timed[leftIdx].deadline < timed[minIdx].deadline {
        minIdx := leftIdx;
      }
      var rightIdx := leftIdx + 1;
      if rightIdx < |timed| && timed[rightIdx].deadline < timed[minIdx].deadline {
        minIdx := rightIdx;
      }
    }

    /** heap_sift_down_idx with async_hp_ent_lt and async_hp_ent_swp */
    method SiftDownTimed(idx0: nat, ghost gone: Option<Evt>, ghost m0: Mem)
      requires idx0 < |timed| && HeapLinked(Events(tree.mem), timed, gone) && SameButIdx(m0, tree.mem)
      modifies this`timed, tree`mem
      ensures timed == SiftDown(old(timed), idx0) && HeapLinked(Events(tree.mem), timed, gone)
      ensures SameButIdx(m0, tree.mem)
    {
      var idx: nat := idx0;
      while true
        invariant idx < |timed| && SiftDown(timed, idx) == SiftDown(old(timed), idx0)
        invariant HeapLinked(Events(tree.mem), timed, gone) && SameButIdx(m0, tree.mem)
        decreases |timed| - idx
      {
        var minIdx := SmallestAround(idx);
        if minIdx == idx {
          break;
        }
        SwapSymmetric(timed, minIdx, idx);
        SwapTimed(minIdx, idx, gone, m0);
        idx := minIdx;
      }
    }

    /** Lines 33-34 of iosvc_dequeue.c: exchange front and back, drop the back. */
    method DropFront(ghost m0: Mem)
      requires |timed| > 0 && HeapLinked(Events(tree.mem), timed, None) && SameButIdx(m0, tree.mem)
      modifies this`timed, tree`mem
      ensures timed == old(timed[0 := timed[|timed| - 1]][..|timed| - 1])
      ensures HeapLinked(Events(tree.mem), timed, Some(EvtOf(old(timed)[0].item))) && SameButIdx(m0, tree.mem)
    {
      var n := |timed| - 1;
      SwapEnds(timed);
      SwapTimed(0, n, None, m0);
      DropLast(Events(tree.mem), timed);
      timed := timed[..n];
    }

    /** Lines 33-37 of iosvc_dequeue.c. */
    method PopFront(ghost m0: Mem)
      requires |timed| > 0 && HeapLinked(Events(tree.mem), timed, None) && SameButIdx(m0, tree.mem)
      modifies this`timed, tree`mem
      ensures timed == PopTop(old(timed))
      ensures HeapLinked(Events(tree.mem), timed, Some(EvtOf(old(timed)[0].item))) && SameButIdx(m0, tree.mem)
    {
      ghost var e := EvtOf(timed[0].item);
      DropFront(m0);
      if timed != [] {
        SiftDownTimed(0, Some(e), m0);
      }
    }

    /** Lines 27-37 of iosvc_dequeue.c.  Exactly the entry at `d` goes, the others stay in heap order, and
        every surviving event's index is its entry's position. */
    method RemoveTimed(d: nat)
      requires d < |timed| && HeapLinked(Events(tree.mem), timed, None)
      requires HeapOrdered(timed) && (d == 0 || timed[0].deadline >= 0)
      modifies this`timed, tree`mem
      ensures timed == RemoveAt(old(timed), d)
      ensures HeapOrdered(timed) && multiset(timed) == old(multiset(timed)) - multiset{old(timed)[d]}
      ensures HeapLinked(Events(tree.mem), timed, Some(EvtOf(old(timed)[d].item)))
      ensures SameButIdx(old(tree.mem), tree.mem)
    {
      RemoveAtCorrect(timed, d);
      DeadlineLinked(Events(tree.mem), timed, d, -1);
      RisesToTop(timed, d);
      ghost var m0 := tree.mem;
      timed := timed[d := timed[d].(deadline := -1)];
      SiftUpTimed(d, m0);
      PopFront(m0);
    }

    // ---------- dequeue ----------

    /** Lines 14-38: report the remaining time and drop the event's heap entry, if it has one. */
    method Untime(node: Ptr, wt: WaitType, now: int) returns (remaining: Option<int>, ghost gone: Option<Evt>)
      requires Valid() && node in tree.mem && Pending(tree.mem[node].slots, wt).Some?
      modifies this`timed, tree`mem
      ensures SameButIdx(old(tree.mem), tree.mem) && SameNodes(old(tree.mem), tree.mem)
      ensures HeapLinked(Events(tree.mem), timed, gone)
      ensures gone == Some(Evt(node, wt))
        || (gone.None? && tree.mem == old(tree.mem) && Pending(tree.mem[node].slots, wt).value.ddl == -1)
      ensures remaining == RemainingOf(io, Key(old(tree.mem)[node].fd, wt), now)
      ensures ModelTimed(old(tree.mem), timed) == DropTimer(io.timed, Key(old(tree.mem)[node].fd, wt))
    {
      hide Represents, HeapOrdered, HeapLinked, RemoveAt, DropTimer, RemainingOf;
      DequeueFacts(tree.mem, tree.root, shape, pollfds, owner, timed, io, node, wt);
      var heapIdx := Pending(tree.mem[node].slots, wt).value.ddl;
      remaining, gone := None, None;
      if heapIdx >= 0 {
        remaining := Some(RemainingAt(timed[heapIdx].deadline, now));
        RemoveTimed(heapIdx);
        gone := Some(Evt(node, wt));
      }
    }

    /** iosvc_dequeue */
    method Dequeue(node: Ptr, wt: WaitType, now: int) returns (hnd: Handler, remaining: Option<int>)
      requires Valid() && node in tree.mem && Pending(tree.mem[node].slots, wt).Some?
      modifies this, tree
      ensures Valid() && tree.root == old(tree.root) && shape == old(shape)
      ensures SameNodes(old(tree.mem), tree.mem)
      ensures
        var k := Key(old(tree.mem)[node].fd, wt);
        && k in old(io).regs && hnd == old(io).regs[k] && remaining == RemainingOf(old(io), k, now)
        && HasPoll(old(io).polls, k.fd) && io == IoModel.Dequeue(old(io), k)
    {
      hide Represents, SameButIdx, HeapLinked, RemainingOf, DropTimer, IoModel.Dequeue;
      ghost var m0, timed0, k := tree.mem, timed, Key(tree.mem[node].fd, wt);
      hnd := HandlerAt(node, wt);
      ghost var gone;
      remaining, gone := Untime(node, wt, now);
      assert gone.None? ==> Events(tree.mem)[Evt(node, wt)].ddl == -1;
      DequeueRep(m0, tree.mem, tree.root, shape, pollfds, owner, timed0, timed, io, node, wt, gone);
      ghost var m1 := tree.mem;
      VacatedEvents(m1, node, wt);
      tree.mem := Vacated(tree.mem, node, wt);
      var i := tree.mem[node].pollIdx;
      pollfds := PutEvents(pollfds, i, DropMask(pollfds[i].events, wt));
      io := IoModel.Dequeue(io, k);
    }

    // ---------- cleanup ----------

    /** ioevt_cleanup_evt: remove a node without events and swap-remove its poll entry. */
    method CleanupEvt(place: Place, parent: Ptr, ghost c: Ctx, ghost t: Shape)
      requires Valid() && t.Node? && Plug(c, t) == shape && Rep(tree.mem, tree.root, c, t)
      requires place == PlaceOf(c) && parent == ParentOf(c) && !LosesParent(t)
      requires t.n.at in tree.mem && tree.mem[t.n.at].pollIdx < |pollfds|
        && pollfds[tree.mem[t.n.at].pollIdx].events == {}
      modifies this, tree
      ensures Valid() && t.n.at !in tree.mem
      ensures HasPoll(old(io).polls, old(tree.mem)[t.n.at].fd) && io == Cleanup(old(io), old(tree.mem)[t.n.at].fd)
      ensures shape == Extracted(c, t) && KeepsNodes(old(shape), shape, Some(t.n.fd))
    {
      hide *;
      Unfold();
      ghost var m0, r0, io0, fd := tree.mem, tree.root, io, tree.mem[t.n.at].fd;
      CleanupFacts(m0, r0, shape, pollfds, owner, timed, io, c, t);
      var node, w := Extract(tree, place, parent, c, t);
      ghost var m1 := tree.mem;
      ExtractedTreeOk(m0, m1, r0, tree.root, shape, c, t);
      ExtractedKeeps(shape, c, t);
      var i := tree.mem[node].pollIdx;
      tree.mem := tree.mem - {node};
      ShrunkBy(m0, m1, node);
      MovedOwner(m0, tree.mem, pollfds, owner, io0.regs, node);
      CleanupRep(m0, tree.mem, r0, tree.root, shape, w, pollfds, owner, timed, io0, node);
      pollfds := DropAt(pollfds, i);
      if i < |pollfds| {
        var y := NodeFor(pollfds[i].fd, w);
        tree.mem := tree.mem[y := tree.mem[y].(pollIdx := i)];
      }
      io, shape, owner := Cleanup(io, fd), w, DropAt(owner, i);
      Fold();
    }

    /** Probe from the root for a descriptor that has a node. */
    method NodeFor(fd: int, ghost w: Shape) returns (x: Ptr)
      requires TreeOk(tree.mem, tree.root, w) && exists y :: y in tree.mem && tree.mem[y].fd == fd
      ensures x in tree.mem && tree.mem[x].fd == fd
    {
      ProbeFromRoot(tree.mem, tree.root, w, fd);
      FdsInTree(tree.mem, tree.root, w, fd);
      var place, parent, c, t := tree.Probe(RootRef, fd, Top, w);
      LinkHolds(tree.mem, tree.root, c, t);
      x := tree.Load(place);
    }

    // ---------- enqueue ----------

    /** Scheduling on a descriptor that already has a node. */
    method EnqueueOld(x: Ptr, wt: WaitType, hnd: Handler, junk: EventData)
      requires Valid() && x in tree.mem && Pending(tree.mem[x].slots, wt).None?
      modifies this, tree
      ensures Valid() && timed == old(timed) && x in tree.mem && shape == old(shape)
      ensures Events(tree.mem) == Events(old(tree.mem))[Evt(x, wt) := EventData(Some(hnd), -1)]
      ensures
        var k := Key(old(tree.mem)[x].fd, wt);
        k !in old(io).regs && io == IoModel.Enqueue(old(io), k, hnd) && tree.mem[x].fd == k.fd
    {
      hide Represents, IoModel.Enqueue, SameNodes, Schedule;
      ghost var m := tree.mem;
      EnqueueExisting(m, tree.root, shape, pollfds, owner, timed, io, x, wt, hnd, junk);
      ScheduledEvents(m, x, wt, hnd, junk);
      var i := tree.mem[x].pollIdx;
      tree.mem := Scheduled(tree.mem, x, wt, hnd, junk);
      pollfds := PutEvents(pollfds, i, pollfds[i].events + SchedMask(wt));
      io := IoModel.Enqueue(io, Key(m[x].fd, wt), hnd);
    }

    /** Scheduling on a descriptor without node; `p` is the address that the allocator returns. */
    method EnqueueFresh(p: Ptr, fd: int, wt: WaitType, hnd: Handler, junk: EventData, place: Place, parent: Ptr,
        ghost c: Ctx)
      requires Valid() && p != NULL && p !in tree.mem
      requires Rep(tree.mem, tree.root, c, Nil) && Plug(c, Nil) == shape && place == PlaceOf(c) && parent == ParentOf(c)
      requires Brackets(c, fd) && !MixedFirst(c) && forall x :: x in tree.mem ==> tree.mem[x].fd != fd
      modifies this, tree
      ensures Valid() && timed == old(timed) && p in tree.mem
      ensures shape == Inserted(c, Id(p, fd)) && KeepsNodes(old(shape), shape, None)
      ensures Events(tree.mem) == Events(old(tree.mem))[Evt(p, wt) := EventData(Some(hnd), -1)]
      ensures
        var k := Key(fd, wt);
        k !in old(io).regs && io == IoModel.Enqueue(old(io), k, hnd) && tree.mem[p].fd == fd
    {
      hide *;
      Unfold();
      ghost var m, r := tree.mem, tree.root;
      NewNodeFacts(m, r, shape, pollfds, owner, timed, io, c, p, fd);
      FreshSlotsFacts(wt);
      var s := Schedule(FreshSlots, wt, EventData(Some(hnd), -1), junk);
      var node := RbNode(NULL, NULL, NULL, true, fd, |pollfds|, s);
      AddedNode(m, r, c, p, node);
      tree.mem := tree.mem[p := node];
      ghost var m1 := tree.mem;
      InsertAndWriteBack(tree, p, place, parent, c);
      ghost var n := Id(p, fd);
      GrownBy(m, m1, tree.mem, p, node, wt, hnd);
      InsertedTreeOk(m, tree.mem, r, tree.root, shape, c, n);
      TreeIsSorted(m, r, shape);
      InsertedKeeps(shape, c, n);
      EnqueueNew(m, tree.mem, r, tree.root, shape, Inserted(c, n), pollfds, owner, timed, io, p, wt, hnd);
      GrownEvents(m, tree.mem, p, wt, hnd);
      pollfds := pollfds + [PollFd(fd, SchedMask(wt), {})];
      io, shape, owner := IoModel.Enqueue(io, Key(fd, wt), hnd), Inserted(c, n), owner + [p];
      Fold();
    }

    /** iosvc_enqueue */
    method Enqueue(status: Status, fd: int, wt: Option<WaitType>, hnd: Option<Handler>, p: Ptr, junk: EventData)
      returns (err: ErrCode, node: Ptr)
      requires Valid() && p != NULL && p !in tree.mem
      requires EnqueueResult(status, io.regs, fd, wt, hnd) == EioOk ==> InsertHarmless(shape, fd)
      modifies this, tree
      ensures Valid()
      ensures err == EnqueueResult(status, old(io).regs, fd, wt, hnd)
      ensures
        var open := status.Ready? || status.Running?;
        && (err == EioOk <==> open && hnd.Some? && wt.Some? && Key(fd, wt.value) !in old(io).regs)
        && (err == EioInprogress <==> open && hnd.Some? && wt.Some? && Key(fd, wt.value) in old(io).regs)
        && (err == EioInvarg <==> open && (hnd.None? || wt.None?))
        && (err == EioStopped <==> status.Stopping? || status.Done?)
      ensures err != EioOk ==>
        io == old(io) && timed == old(timed) && pollfds == old(pollfds) && shape == old(shape)
        && tree.mem == old(tree.mem) && tree.root == old(tree.root)
      ensures err == EioOk ==> shape == ShapeWith(old(shape), fd, p)
      ensures KeepsNodes(old(shape), shape, None) && (HasPoll(old(io).polls, fd) ==> shape == old(shape))
      ensures err == EioOk ==>
        io == IoModel.Enqueue(old(io), Key(fd, wt.value), hnd.value) && timed == old(timed)
        && node in tree.mem && tree.mem[node].fd == fd
        && Evt(node, wt.value) in Events(tree.mem) && Events(tree.mem)[Evt(node, wt.value)].ddl == -1
    {
      hide Represents, IoModel.Enqueue, Brackets, AreEvents, Inserted, HasPoll;
      node := NULL;
      if status != Ready && status != Running {
        return EioStopped, NULL;
      }
      if hnd.None? || wt.None? {
        return EioInvarg, NULL;
      }
      SearchFacts(tree.mem, tree.root, shape, pollfds, owner, timed, io, fd);
      PolledIffFound(tree.mem, tree.root, shape, pollfds, owner, timed, io, fd);
      var place, parent, c, t := tree.Probe(RootRef, fd, Top, shape);
      LinkHolds(tree.mem, tree.root, c, t);
      var x := tree.Load(place);
      if x != NULL {
        if IsScheduled(tree.mem[x].slots, wt.value) {
          return EioInprogress, NULL;
        }
        EnqueueOld(x, wt.value, hnd.value, junk);
        return EioOk, x;
      }
      assert t == shape ==> c == Top;
      EnqueueFresh(p, fd, wt.value, hnd.value, junk, place, parent, c);
      return EioOk, p;
    }

    /** iosvc_sched_timeout, `now` being the clock reading it takes first. */
    method SchedTimeout(status: Status, fd: int, wt: Option<WaitType>, hnd: Option<Handler>, ms: int, now: int, p: Ptr,
        junk: EventData)
      returns (err: ErrCode)
      requires Valid() && p != NULL && p !in tree.mem
      requires EnqueueResult(status, io.regs, fd, wt, hnd) == EioOk ==> InsertHarmless(shape, fd) && now + ms >= 0
      modifies this, tree
      ensures Valid()
      ensures err == EnqueueResult(status, old(io).regs, fd, wt, hnd)
      ensures
        var open := status.Ready? || status.Running?;
        && (err == EioOk <==> open && hnd.Some? && wt.Some? && Key(fd, wt.value) !in old(io).regs)
        && (err == EioInprogress <==> open && hnd.Some? && wt.Some? && Key(fd, wt.value) in old(io).regs)
        && (err == EioInvarg <==> open && (hnd.None? || wt.None?))
        && (err == EioStopped <==> status.Stopping? || status.Done?)
      ensures err != EioOk ==>
        io == old(io) && timed == old(timed) && pollfds == old(pollfds) && shape == old(shape)
        && tree.mem == old(tree.mem) && tree.root == old(tree.root)
      ensures err == EioOk ==> shape == ShapeWith(old(shape), fd, p)
      ensures KeepsNodes(old(shape), shape, None) && (HasPoll(old(io).polls, fd) ==> shape == old(shape))
      ensures err == EioOk ==>
        var k := Key(fd, wt.value);
        io == AddTimer(IoModel.Enqueue(old(io), k, hnd.value), k, now, ms)
    {
      hide Represents, IoModel.Enqueue, AddTimer, InsertHarmless, HeapLinked, SameButIdx, AreEvents, SiftUp,
        ShapeWith, KeepsNodes;
      var deadline := now + ms;
      var node;
      err, node := Enqueue(status, fd, wt, hnd, p, junk);
      if err != EioOk {
        return;
      }
      ghost var m, timed0 := tree.mem, timed;
      ghost var k := Key(fd, wt.value);
      TimerFacts(m, tree.root, shape, pollfds, owner, timed, io, node, wt.value, now, ms);
      var e := Evt(node, wt.value);
      timed := timed + [Entry(deadline, EvtRef(node, wt.value, ms, now))];
      tree.mem := SetIdx(tree.mem, e, |timed| - 1);
      SiftUpTimed(|timed| - 1, m);
      TimerRep(m, tree.mem, tree.root, shape, pollfds, owner, timed0, timed, io, node, wt.value, now, ms);
      io := AddTimer(io, k, now, ms);
    }

    // ---------- what the event loop needs to know ----------

    /** rb_probe from the root, as every caller outside this class uses it. */
    method Find(fd: int) returns (place: Place, parent: Ptr)
      requires Valid()
      ensures
        var (c, t) := ProbeTo(Top, shape, fd);
        place == PlaceOf(c) && parent == ParentOf(c)
    {
      SearchFacts(tree.mem, tree.root, shape, pollfds, owner, timed, io, fd);
      ghost var c, t;
      place, parent, c, t := tree.Probe(RootRef, fd, Top, shape);
      assert t == shape ==> c == Top;
    }

    /** What the link found for `fd` leads to. */
    lemma Found(fd: int)
      requires Valid()
      ensures pollfds == io.polls
      ensures
        var (c, t) := ProbeTo(Top, shape, fd);
        && Plug(c, t) == shape && Rep(tree.mem, tree.root, c, t)
        && (PlaceOf(c).ChildRef? ==> PlaceOf(c).p in tree.mem) && tree.Load(PlaceOf(c)) == RootOf(t)
        && (t.Node? <==> HasPoll(io.polls, fd)) && (t.Nil? <==> RootOf(t) == NULL)
        && (t.Node? ==>
              && t.n.at in tree.mem && tree.mem[t.n.at].fd == fd && t.n.fd == fd && t.n in InOrder(shape)
              && tree.mem[t.n.at].pollIdx == FindPoll(io.polls, fd)
              && forall wt :: Pending(tree.mem[t.n.at].slots, wt).Some? <==> Key(fd, wt) in io.regs)
    {
      FoundFacts(tree.mem, tree.root, shape, pollfds, owner, timed, io, fd);
    }

    /** The entry on top of the deadline heap names a live event of a node in the tree. */
    lemma TopNode()
      requires Valid() && timed != []
      ensures |io.timed| == |timed|
      ensures
        var x, k := timed[0].item.node, io.timed[0].item.key;
        && x in tree.mem && tree.mem[x].fd == k.fd && timed[0].item.wt == k.wt && k in io.regs
        && Pending(tree.mem[x].slots, k.wt).Some? && HasPoll(io.polls, k.fd) && Id(x, k.fd) in InOrder(shape)
    {
      TopFacts(tree.mem, tree.root, shape, pollfds, owner, timed, io);
    }

    /** A node that the tree still holds is the one found for its descriptor. */
    lemma SameNode(x: Ptr, fd: int)
      requires Valid() && Id(x, fd) in InOrder(shape)
      ensures
        var (c, t) := ProbeTo(Top, shape, fd);
        t.Node? && t.n == Id(x, fd)
    {
      Found(fd);
      FdsInTree(tree.mem, tree.root, shape, fd);
      ProbeFromRoot(tree.mem, tree.root, shape, fd);
      var (c, t) := ProbeTo(Top, shape, fd);
      OneNode(InOrder(shape), t.n, Id(x, fd));
    }

    /** The deadlines of the heap are those of the represented timers. */
    lemma SameDeadlines()
      requires Valid()
      ensures pollfds == io.polls && |io.timed| == |timed|
      ensures forall i :: 0 <= i < |timed| ==> timed[i].deadline == io.timed[i].deadline
    {
    }

    /** rb_ref_to_this for a node of the tree. */
    method LinkTo(x: Ptr, ghost fd: int) returns (place: Place, parent: Ptr)
      requires Valid() && Id(x, fd) in InOrder(shape)
      ensures
        var (c, t) := ProbeTo(Top, shape, fd);
        place == PlaceOf(c) && parent == ParentOf(c)
    {
      SameNode(x, fd);
      Found(fd);
      ghost var (c, t) := ProbeTo(Top, shape, fd);
      place, parent := tree.RefToThis(x, c, t);
    }

    /** What iosvc_enqueue would answer. */
    method Answer(status: Status, fd: int, wt: Option<WaitType>, hnd: Option<Handler>) returns (err: ErrCode)
      requires Valid()
      ensures err == EnqueueResult(status, io.regs, fd, wt, hnd)
    {
      hide Represents;
      if status != Ready && status != Running {
        return EioStopped;
      }
      if hnd.None? || wt.None? {
        return EioInvarg;
      }
      Found(fd);
      PolledIfRegistered(Key(fd, wt.value));
      var place, parent := Find(fd);
      var x := tree.Load(place);
      return if x != NULL && IsScheduled(tree.mem[x].slots, wt.value) then EioInprogress else EioOk;
    }

    lemma PolledIfRegistered(k: Key)
      requires Valid()
      ensures k in io.regs ==> HasPoll(io.polls, k.fd)
    {
    }

    /** Whether a node for `fd` would be missing and its insertion start with a mixed rotation. */
    method Mixes(fd: int) returns (b: bool)
      requires Valid()
      ensures b <==> !InsertHarmless(shape, fd)
    {
      Found(fd);
      var place, parent := Find(fd);
      ghost var (c, t) := ProbeTo(Top, shape, fd);
      if tree.Load(place) != NULL || !tree.IsRedAt(parent) {
        RedParent(tree.mem, tree.root, c, t);
        return false;
      }
      RedParent(tree.mem, tree.root, c, t);
      var grandparent, parentDir, uncle, uncleRed := Relatives(tree, parent, c, t);
      return grandparent != NULL && place.d != parentDir && !uncleRed;
    }

    /** Whether rb_extract would lose the parent of this node's place. */
    method Loses(x: Ptr, ghost c: Ctx, ghost t: Shape) returns (b: bool)
      requires Rep(tree.mem, tree.root, c, t) && t.Node? && t.n.at == x
      ensures b <==> LosesParent(t)
    {
      LinkHolds(tree.mem, tree.root, c, t);
      ChildrenHold(tree.mem, tree.root, c, t);
      var l := tree.mem[x].left;
      return l != NULL && tree.mem[x].right != NULL && tree.mem[l].right == NULL && !tree.mem[l].red;
    }

    /** malloc: some address that is not in use. */
    method Allocate() returns (p: Ptr)
      ensures p != NULL && p !in tree.mem
    {
      ghost var some: Ptr := 1 + Bound(tree.mem.Keys);
      assert some != NULL && some !in tree.mem;
      p :| p != NULL && p !in tree.mem;
    }

    /** What poll() does to the vector, and line 265 of io_service.c to one entry. */
    method SetRevents(polls: seq<PollFd>)
      requires Valid() && SameButRevents(io.polls, polls)
      modifies this`pollfds, this`io
      ensures Valid() && io == old(io).(polls := polls)
    {
      ReventsRep(tree.mem, tree.root, shape, pollfds, polls, owner, timed, io);
      pollfds := polls;
      io := io.(polls := polls);
    }

    /** is_top_event_ready reads the revents of the top event's descriptor. */
    method TopRevents() returns (revents: Flags)
      requires Valid() && timed != []
      ensures |io.timed| == |timed| && HasPoll(io.polls, io.timed[0].item.key.fd)
      ensures revents == io.polls[FindPoll(io.polls, io.timed[0].item.key.fd)].revents
    {
      TopNode();
      Found(io.timed[0].item.key.fd);
      SameNode(timed[0].item.node, io.timed[0].item.key.fd);
      revents := pollfds[tree.mem[timed[0].item.node].pollIdx].revents;
    }

    /** The calls of stop_async_ops, in the order of the tree. */
    method Walk() returns (calls: seq<StopWalk.Stop>)
      requires Valid()
      ensures multiset(calls) == multiset(io.regs.Items) && calls == StopWalk.Order(tree.mem, shape)
      ensures StopWalk.InTreeOrder(tree.mem, shape, calls)
    {
      hide StopWalk.InTreeOrder;
      TreeIsSorted(tree.mem, tree.root, shape);
      StopWalk.RootFacts(tree.mem, tree.root, shape, pollfds, owner, timed, io);
      calls := StopWalk.StopAsyncOps(tree.mem, tree.root, shape, NULL);
      StopWalk.StopsAll(tree.mem, tree.root, shape, pollfds, owner, timed, io, calls);
    }

    /** Lines 134-136 of io_service.c, with the freeing of all nodes. */
    method Clear()
      requires Valid()
      modifies this, tree
      ensures Valid() && io == Idle && shape == Nil
    {
      hide Represents;
      IdleRep();
      tree.mem, tree.root := map[], NULL;
      pollfds, timed := [], [];
      io, shape, owner := Idle, Nil, [];
    }

    /** Representing nothing means holding nothing. */
    lemma NothingHeld()
      requires Valid() && io == Idle
      ensures tree.mem == map[] && tree.root == NULL && pollfds == [] && timed == []
    {
      NodesNeedEntries(tree.mem, pollfds, owner);
      EmptyRoot(tree.mem, tree.root, shape);
    }

    /** The handler stored for a live event. */
    method HandlerAt(node: Ptr, wt: WaitType) returns (hnd: Handler)
      requires Valid() && node in tree.mem && Pending(tree.mem[node].slots, wt).Some?
      ensures
        var k := Key(tree.mem[node].fd, wt);
        k in io.regs && hnd == io.regs[k] && Evt(node, wt) in Events(tree.mem)
    {
      DequeueFacts(tree.mem, tree.root, shape, pollfds, owner, timed, io, node, wt);
      hnd := Pending(tree.mem[node].slots, wt).value.callback.value;
    }
  }

  lemma TreeIsSorted(m: Mem, root: Ptr, shape: Shape)
    requires TreeOk(m, root, shape)
    ensures Balanced(shape) && Sorted(InOrder(shape))
  {
  }

  lemma PolledIffFound(m: Mem, root: Ptr, shape: Shape, polls: seq<PollFd>, owner: seq<Ptr>, timed: Timed, io: IoState,
      fd: int)
    requires Represents(m, root, shape, polls, owner, timed, io)
    ensures ProbeTo(Top, shape, fd).1.Node? <==> HasPoll(io.polls, fd)
  {
    ProbeFromRoot(m, root, shape, fd);
    FdsInTree(m, root, shape, fd);
    NodeOfPoll(m, polls, owner, fd);
  }

  lemma FoundFacts(m: Mem, root: Ptr, shape: Shape, polls: seq<PollFd>, owner: seq<Ptr>, timed: Timed, io: IoState,
      fd: int)
    requires Represents(m, root, shape, polls, owner, timed, io)
    ensures polls == io.polls
    ensures
      var (c, t) := ProbeTo(Top, shape, fd);
      && Plug(c, t) == shape && Rep(m, root, c, t)
      && (c.Up? ==> c.n.at in m && m[c.n.at].Child(c.d) == RootOf(t)) && (c.Top? ==> root == RootOf(t))
      && (t.Node? <==> HasPoll(io.polls, fd)) && (t.Nil? <==> RootOf(t) == NULL)
      && (t.Node? ==>
            && t.n.at in m && m[t.n.at].fd == fd && t.n.fd == fd && t.n in InOrder(shape)
            && m[t.n.at].pollIdx == FindPoll(io.polls, fd)
            && forall wt :: Pending(m[t.n.at].slots, wt).Some? <==> Key(fd, wt) in io.regs)
  {
    hide Balanced, HeapLinked, RegsLinked, TimedOk, SlotsOk, ModelTimed;
    SearchFacts(m, root, shape, polls, owner, timed, io, fd);
    PolledIffFound(m, root, shape, polls, owner, timed, io, fd);
    var (c, t) := ProbeTo(Top, shape, fd);
    RepSplit(m, root, c, t);
    LinkHolds(m, root, c, t);
    if t.Node? {
      PollOfNode(m, polls, owner, io.regs, t.n.at);
      PlugInOrder(c, t);
    }
  }

  lemma TopFacts(m: Mem, root: Ptr, shape: Shape, polls: seq<PollFd>, owner: seq<Ptr>, timed: Timed, io: IoState)
    requires Represents(m, root, shape, polls, owner, timed, io) && timed != []
    ensures |io.timed| == |timed|
    ensures
      var x, k := timed[0].item.node, io.timed[0].item.key;
      && x in m && m[x].fd == k.fd && timed[0].item.wt == k.wt && k in io.regs
      && Pending(m[x].slots, k.wt).Some? && HasPoll(io.polls, k.fd) && Id(x, k.fd) in InOrder(shape)
  {
    var e := EvtOf(timed[0].item);
    assert e in Events(m);
    assert io.timed[0] in io.timed;
    NodeInTree(m, root, shape, e.node);
  }

  lemma NodeInTree(m: Mem, root: Ptr, shape: Shape, x: Ptr)
    requires TreeOk(m, root, shape) && x in m
    ensures Id(x, m[x].fd) in InOrder(shape)
  {
    NodesInOrder(shape);
    var i :| i in InOrder(shape) && i.at == x;
    FdAt(shape, NULL, i);
    assert CellOf(m[x]) == CellAt(shape, NULL, x);
    assert i == Id(x, m[x].fd);
  }

  lemma OneNode(s: seq<Id>, a: Id, b: Id)
    requires Sorted(s) && a in s && b in s && a.fd == b.fd
    ensures a == b
  {
  }

  lemma RedParent(m: Mem, root: Ptr, c: Ctx, t: Shape)
    requires Rep(m, root, c, t)
    ensures ParentOf(c) != NULL ==> ParentOf(c) in m
    ensures CtxRed(c) <==> ParentOf(c) != NULL && m[ParentOf(c)].red
    ensures MixedFirst(c) ==> CtxRed(c)
    ensures RootOf(t) == NULL <==> t.Nil?
  {
  }

  lemma ChildrenHold(m: Mem, root: Ptr, c: Ctx, t: Shape)
    requires Rep(m, root, c, t) && t.Node?
    ensures t.n.at in m && m[t.n.at].left == RootOf(t.left) && m[t.n.at].right == RootOf(t.right)
    ensures (RootOf(t.left) == NULL <==> t.left.Nil?) && (RootOf(t.right) == NULL <==> t.right.Nil?)
    ensures t.left.Node? ==>
      t.left.n.at in m && m[t.left.n.at].red == t.left.red && (m[t.left.n.at].right == NULL <==> t.left.right.Nil?)
  {
    LinkHolds(m, root, c, t);
    RepDown(m, root, c, t, Left);
    RepDown(m, root, c, t, Right);
    LinkHolds(m, root, Up(Left, t.n, t.red, t.right, c), t.left);
    LinkHolds(m, root, Up(Right, t.n, t.red, t.left, c), t.right);
    if t.left.Node? {
      var cc := Up(Left, t.n, t.red, t.right, c);
      RepDown(m, root, cc, t.left, Right);
      LinkHolds(m, root, Up(Right, t.left.n, t.left.red, t.left.left, cc), t.left.right);
    }
  }

  /** A bound on the addresses in use. */
  ghost function Bound(s: set<Ptr>): (b: Ptr)
    ensures forall x :: x in s ==> x <= b
    decreases |s|
  {
    if s == {} then 0
    else
      var x :| x in s;
      var r := Bound(s - {x});
      assert forall y :: y in s ==> y == x || y in s - {x};
      if x < r then r else x
  }

  lemma ReventsRep(m: Mem, root: Ptr, shape: Shape, polls: seq<PollFd>, polls': seq<PollFd>, owner: seq<Ptr>,
      timed: Timed, io: IoState)
    requires Represents(m, root, shape, polls, owner, timed, io) && SameButRevents(polls, polls')
    ensures Represents(m, root, shape, polls', owner, timed, io.(polls := polls'))
  {
    hide TreeOk, SlotsOk, HeapLinked, RegsLinked, ModelTimed, TimedOk, PollsOk;
    ReventsFree(polls, polls', io.regs);
  }

  lemma NodesNeedEntries(m: Mem, polls: seq<PollFd>, owner: seq<Ptr>)
    requires PollsLinked(m, polls, owner)
    ensures m != map[] ==> polls != []
  {
    if x :| x in m {
      assert m[x].pollIdx < |owner|;
    }
  }

  lemma EmptyRoot(m: Mem, root: Ptr, shape: Shape)
    requires TreeOk(m, root, shape) && m == map[]
    ensures root == NULL
  {
  }

  lemma IdleRep()
    ensures Represents(map[], NULL, Nil, [], [], [], Idle)
  {
    assert Events(map[]) == map[];
  }

  lemma NewNodeFacts(m: Mem, root: Ptr, shape: Shape, polls: seq<PollFd>, owner: seq<Ptr>, timed: Timed, io: IoState,
      c: Ctx, p: Ptr, fd: int)
    requires Represents(m, root, shape, polls, owner, timed, io) && Plug(c, Nil) == shape && p !in m
    requires forall x :: x in m ==> m[x].fd != fd
    ensures TreeOk(m, root, shape) && !HasPoll(polls, fd) && p !in CtxNodes(c)
  {
    PlugNodes(c, Nil);
    NodeOfPoll(m, polls, owner, fd);
  }

  lemma AddedNode(m: Mem, root: Ptr, c: Ctx, p: Ptr, n: RbNode)
    requires Rep(m, root, c, Nil) && p !in m
    ensures Rep(m[p := n], root, c, Nil)
  {
  }

  lemma FreshSlotsFacts(wt: WaitType)
    ensures Valid(FreshSlots) && Pending(FreshSlots, wt).None?
  {
  }

  lemma GrownBy(m: Mem, m1: Mem, m': Mem, p: Ptr, n: RbNode, wt: WaitType, h: Handler)
    requires p !in m && m1 == m[p := n] && SamePayload(m1, m')
    requires Valid(n.slots)
    requires forall w :: Pending(n.slots, w) == if w == wt then Some(EventData(Some(h), -1)) else Pending(FreshSlots, w)
    ensures Grown(m, m', p) && m'.Keys == m.Keys + {p} && JustScheduled(m'[p].slots, wt, h)
    ensures m'[p].fd == n.fd && m'[p].pollIdx == n.pollIdx
  {
  }

  /** What a search for `fd` from the root means for the represented state. */
  lemma SearchFacts(m: Mem, root: Ptr, shape: Shape, polls: seq<PollFd>, owner: seq<Ptr>, timed: Timed, io: IoState,
      fd: int)
    requires Represents(m, root, shape, polls, owner, timed, io)
    ensures Rep(m, root, Top, shape)
    ensures
      var (c, t) := ProbeTo(Top, shape, fd);
      Plug(c, t) == shape && Brackets(c, fd)
      && (t.Node? ==>
            t.n.at in m && m[t.n.at].fd == fd
            && forall wt :: Pending(m[t.n.at].slots, wt).Some? <==> Key(fd, wt) in io.regs)
      && (t.Nil? ==> (forall x :: x in m ==> m[x].fd != fd) && forall wt :: Key(fd, wt) !in io.regs)
  {
    ProbeFromRoot(m, root, shape, fd);
    FdsInTree(m, root, shape, fd);
    NodeOfPoll(m, polls, owner, fd);
    var (c, t) := ProbeTo(Top, shape, fd);
    if t.Node? {
      FoundNode(m, root, c, t, shape);
      assert forall wt :: Evt(t.n.at, wt) in Events(m) <==> Pending(m[t.n.at].slots, wt).Some?;
    } else {
      FreshEvents(io, fd);
    }
  }

  lemma FoundNode(m: Mem, root: Ptr, c: Ctx, t: Shape, shape: Shape)
    requires Rep(m, root, Top, shape) && Plug(c, t) == shape && t.Node?
    ensures t.n.at in m && m[t.n.at].fd == t.n.fd
  {
    RepSplit(m, root, c, t);
    LinkHolds(m, root, c, t);
  }

  /** Appending a heap entry for a live event without index links the two. */
  lemma TimerFacts(m: Mem, root: Ptr, shape: Shape, polls: seq<PollFd>, owner: seq<Ptr>, timed: Timed, io: IoState,
      x: Ptr, wt: WaitType, since: int, ms: int)
    requires Represents(m, root, shape, polls, owner, timed, io)
    requires Evt(x, wt) in Events(m) && Events(m)[Evt(x, wt)].ddl == -1
    ensures x in m && Pending(m[x].slots, wt).Some?
    ensures
      var m' := SetIdx(m, Evt(x, wt), |timed|);
      HeapLinked(Events(m'), timed + [Entry(since + ms, EvtRef(x, wt, ms, since))], None) && SameButIdx(m, m')
  {
    SetIdxEvents(m, Evt(x, wt), |timed|);
    AppendLinked(Events(m), timed, Evt(x, wt), Entry(since + ms, EvtRef(x, wt, ms, since)));
  }

  lemma AppendLinked(ev: map<Evt, EventData>, timed: Timed, e: Evt, r: Entry<EvtRef>)
    requires HeapLinked(ev, timed, None) && e in ev && ev[e].ddl == -1 && EvtOf(r.item) == e
    ensures HeapLinked(ev[e := ev[e].(ddl := |timed|)], timed + [r], None)
  {
  }

  lemma KeyOfEvent(m: Mem, ev: map<Evt, EventData>, regs: map<Key, Handler>, x: Ptr, wt: WaitType)
    requires RegsLinked(m, ev, regs) && x in m && Evt(x, wt) in ev
    ensures Key(m[x].fd, wt) in regs
  {
  }

  /** The four structures after the new entry has been sifted into place. */
  lemma TimerRep(m: Mem, m': Mem, root: Ptr, shape: Shape, polls: seq<PollFd>, owner: seq<Ptr>, timed: Timed,
      timed': Timed, io: IoState, x: Ptr, wt: WaitType, since: int, ms: int)
    requires Represents(m, root, shape, polls, owner, timed, io) && SameButIdx(m, m')
      && HeapLinked(Events(m'), timed', None)
    requires Evt(x, wt) in Events(m) && Events(m)[Evt(x, wt)].ddl == -1 && since + ms >= 0
    requires timed' == Push(timed, Entry(since + ms, EvtRef(x, wt, ms, since)))
    ensures x in m
    ensures Represents(m', root, shape, polls, owner, timed', AddTimer(io, Key(m[x].fd, wt), since, ms))
  {
    hide Rep, Balanced, Sorted, RegsLinked, HeapLinked, Push, FindTimer, PollsOk, TimedOk, HeapOrdered;
    var k := Key(m[x].fd, wt);
    PollOfNode(m, polls, owner, io.regs, x);
    TimerOfNode(m, timed, k, x);
    KeyOfEvent(m, Events(m), io.regs, x, wt);
    SameKeepsTree(m, m', root, shape);
    RegsSameIdx(m, m', io.regs);
    SameKeepsTimed(m, m', timed');
    PushMap(timed, (r: EvtRef) => TimerOf(m, r), Entry(since + ms, EvtRef(x, wt, ms, since)));
    AddTimerKeeps(io, k, since, ms);
  }

  lemma CleanupFacts(m: Mem, root: Ptr, shape: Shape, polls: seq<PollFd>, owner: seq<Ptr>, timed: Timed, io: IoState,
      c: Ctx, t: Shape)
    requires Represents(m, root, shape, polls, owner, timed, io) && Plug(c, t) == shape && Rep(m, root, c, t)
    ensures TreeOk(m, root, shape) && Balanced(shape) && Sorted(InOrder(shape)) && DistinctAt(c, t)
    ensures PollsLinked(m, polls, owner) && PollsOk(polls, io.regs)
  {
  }

  lemma ShrunkBy(m: Mem, m': Mem, x: Ptr)
    requires SamePayload(m, m') && x in m
    ensures Shrunk(m, m' - {x}, x) && x in m' && m'[x].pollIdx == m[x].pollIdx
  {
  }

  /** The poll entry that swap-remove moves belongs to another node, the only one for its descriptor. */
  lemma MovedOwner(m: Mem, m': Mem, polls: seq<PollFd>, owner: seq<Ptr>, regs: map<Key, Handler>, x: Ptr)
    requires PollsLinked(m, polls, owner) && PollsOk(polls, regs) && Shrunk(m, m', x)
    ensures x in m && x !in m'
    ensures
      var i, n := m[x].pollIdx, |polls| - 1;
      |owner| == |polls| && i <= n && |DropAt(polls, i)| == n
      && (i == n ==> Reindexed(m', owner, i) == m')
      && (i < n ==>
            owner[n] in m' && m'[owner[n]].fd == polls[n].fd && DropAt(polls, i)[i] == polls[n]
            && Reindexed(m', owner, i) == m'[owner[n] := m'[owner[n]].(pollIdx := i)]
            && forall y :: y in m' && m'[y].fd == polls[n].fd ==> y == owner[n])
  {
    PollOfNode(m, polls, owner, regs, x);
  }

  lemma HeapFacts(m: Mem, timed: Timed, io: IoState)
    requires IoInv(io) && io.timed == ModelTimed(m, timed)
    ensures HeapOrdered(timed) && (timed != [] ==> timed[0].deadline >= 0)
  {
  }

  /** What the heap index of a live event says about the represented timers. */
  lemma DequeueFacts(m: Mem, root: Ptr, shape: Shape, polls: seq<PollFd>, owner: seq<Ptr>, timed: Timed, io: IoState,
      x: Ptr, wt: WaitType)
    requires Represents(m, root, shape, polls, owner, timed, io) && x in m && Pending(m[x].slots, wt).Some?
    ensures
      var d, k := Pending(m[x].slots, wt).value.ddl, Key(m[x].fd, wt);
      && k in io.regs && Pending(m[x].slots, wt).value.callback == Some(io.regs[k])
      && HeapOrdered(timed) && (timed != [] ==> timed[0].deadline >= 0) && Evt(x, wt) in Events(m)
      && HeapLinked(Events(m), timed, None)
      && (d < 0 ==> d == -1 && DropTimer(io.timed, k) == ModelTimed(m, timed)
                    && forall now :: RemainingOf(io, k, now) == None)
      && (d >= 0 ==> d < |timed| && EvtOf(timed[d].item) == Evt(x, wt)
                     && DropTimer(io.timed, k) == ModelTimed(m, RemoveAt(timed, d))
                     && forall now :: RemainingOf(io, k, now) == Some(RemainingAt(timed[d].deadline, now)))
  {
    var k := Key(m[x].fd, wt);
    assert Evt(x, wt) in Events(m);
    PollOfNode(m, polls, owner, io.regs, x);
    HeapFacts(m, timed, io);
    TimerOfNode(m, timed, k, x);
    var d := Events(m)[Evt(x, wt)].ddl;
    if d >= 0 {
      RemoveAtMap(timed, (r: EvtRef) => TimerOf(m, r), d);
    }
  }

  lemma SameTransitive(m: Mem, m': Mem, m'': Mem)
    requires SameButIdx(m, m') && SameButIdx(m', m'')
    ensures SameButIdx(m, m'')
  {
  }

  lemma RisesToTop(s: Timed, d: nat)
    requires d < |s| && HeapOrdered(s) && (d == 0 || s[0].deadline >= 0)
    ensures SiftUp(s[d := s[d].(deadline := -1)], d)[0] == s[d].(deadline := -1)
  {
    if d > 0 {
      LoweredOrdered(s, d);
      SiftUpToTop(s[d := s[d].(deadline := -1)], d);
    }
  }
}
