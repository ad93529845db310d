/** The walk over the node tree by which a stopping service calls every registered handler
    (stop_async_ops in src/io_service.c). */
module StopWalk {
  import opened IoTypes
  import opened EventSlots
  import opened RbShape
  import opened RbLinks
  import opened IoModel
  import opened RegistryRep

  type Stop = (Key, Handler)

  /** The node at `x` holds the handler for this key. */
  predicate LiveAt(m: Mem, x: Ptr, q: Stop) {
    x in m && m[x].fd == q.0.fd && Pending(m[x].slots, q.0.wt).Some?
      && Pending(m[x].slots, q.0.wt).value.callback == Some(q.1)
  }

  ghost predicate LiveIn(m: Mem, t: Shape, q: Stop) { exists x :: x in Nodes(t) && LiveAt(m, x, q) }

  function Times(b: bool): nat { if b then 1 else 0 }

  /** The type of the event in the inline storage, and that of the event in the auxiliary one. */
  function MainWait(s: Slots): WaitType { if s.mainType == MainRead then WaitRead else WaitWrite }

  function AuxWait(s: Slots): WaitType { if s.mainType == MainRead then WaitWrite else WaitRead }

  /** The handler in a storage, as a call for this key. */
  function CallFor(fd: int, wt: WaitType, e: Option<EventData>): (calls: seq<Stop>)
    ensures forall q :: multiset(calls)[q] == Times(LiveOpt(e) && q == (Key(fd, wt), e.value.callback.value))
  {
    if LiveOpt(e) then [(Key(fd, wt), e.value.callback.value)] else []
  }

  /** The calls for one node: inline storage, auxiliary storage, exception storage. */
  function CallsOf(n: RbNode): seq<Stop>
    requires Valid(n.slots)
  {
    CallFor(n.fd, MainWait(n.slots), Some(n.slots.main)) + CallFor(n.fd, AuxWait(n.slots), n.slots.aux)
    + CallFor(n.fd, WaitException, n.slots.ex)
  }

  /** The order of the tree: a node before its subtrees, left before right. */
  function Order(m: Mem, t: Shape): seq<Stop> {
    match t
    case Nil => []
    case Node(l, n, _, r) =>
      (if n.at in m && Valid(m[n.at].slots) then CallsOf(m[n.at]) else []) + Order(m, l) + Order(m, r)
  }

  // ---------- what that order is ----------

  ghost function Fds(t: Shape): set<int> { set n | n in InOrder(t) :: n.fd }

  /** No call for the root after one for another node, none for the left part after one for the right part. */
  ghost predicate Grouped(fd: int, l: set<int>, r: set<int>, calls: seq<Stop>) {
    && (forall i, j :: 0 <= i < j < |calls| && calls[j].0.fd == fd ==> calls[i].0.fd !in l && calls[i].0.fd !in r)
    && (forall i, j :: 0 <= i < j < |calls| && calls[j].0.fd in l ==> calls[i].0.fd !in r)
  }

  /** In every subtree, the calls of its root come before those of its other nodes, and those of its left part
      before those of its right one. */
  ghost predicate RootsFirst(t: Shape, calls: seq<Stop>)
    decreases t
  {
    t.Node? ==>
      && Grouped(t.n.fd, Fds(t.left), Fds(t.right), calls)
      && RootsFirst(t.left, calls) && RootsFirst(t.right, calls)
  }

  /** Once a larger descriptor has been called, no smaller one is any more. */
  predicate SmallerFirst(calls: seq<Stop>) {
    forall i, j, k :: 0 <= i < j < k < |calls| ==> !(calls[k].0.fd < calls[i].0.fd < calls[j].0.fd)
  }

  /** Within a node, the inline storage comes first and the exception storage last. */
  predicate InlineFirst(m: Mem, calls: seq<Stop>) {
    forall i, j, x :: 0 <= i < j < |calls| && x in m && m[x].fd == calls[i].0.fd && m[x].fd == calls[j].0.fd ==>
      && calls[i].0.wt != WaitException
      && (m[x].slots.mainType == MainRead ==> calls[j].0.wt != WaitRead)
      && (m[x].slots.mainType == MainWrite ==> calls[j].0.wt != WaitWrite)
  }

  ghost predicate InTreeOrder(m: Mem, t: Shape, calls: seq<Stop>) {
    RootsFirst(t, calls) && SmallerFirst(calls) && InlineFirst(m, calls)
  }

  ghost predicate Within(calls: seq<Stop>, fds: set<int>) {
    forall i :: 0 <= i < |calls| ==> calls[i].0.fd in fds
  }

  lemma OwnFds(n: RbNode)
    requires Valid(n.slots)
    ensures Within(CallsOf(n), {n.fd})
  {
  }

  /** Calls for other descriptors around them do not disturb the order. */
  lemma {:induction false} RootsFirstAmong(t: Shape, a: seq<Stop>, b: seq<Stop>, c: seq<Stop>)
    requires RootsFirst(t, b) && (forall i :: 0 <= i < |a| ==> a[i].0.fd !in Fds(t))
    requires forall i :: 0 <= i < |c| ==> c[i].0.fd !in Fds(t)
    ensures RootsFirst(t, a + b + c)
    decreases t
  {
    if t.Node? {
      FdsSplit(t);
      RootsFirstAmong(t.left, a, b, c);
      RootsFirstAmong(t.right, a, b, c);
      var calls := a + b + c;
      forall i, j | 0 <= i < j < |calls| && calls[j].0.fd in Fds(t) && calls[i].0.fd in Fds(t)
        ensures |a| <= i < j < |a| + |b| && calls[i] == b[i - |a|] && calls[j] == b[j - |a|]
      {
      }
    }
  }

  lemma FdsSplit(t: Shape)
    requires t.Node?
    ensures Fds(t) == Fds(t.left) + {t.n.fd} + Fds(t.right)
  {
  }

  lemma SortedSplit(t: Shape)
    requires t.Node? && Sorted(InOrder(t))
    ensures Sorted(InOrder(t.left)) && Sorted(InOrder(t.right))
    ensures (forall fd :: fd in Fds(t.left) ==> fd < t.n.fd) && (forall fd :: fd in Fds(t.right) ==> t.n.fd < fd)
  {
    var s, a, b := InOrder(t), InOrder(t.left), InOrder(t.right);
    assert s == a + [t.n] + b && s[|a|] == t.n;
    forall i | 0 <= i < |a|
      ensures s[i] == a[i]
    {
    }
    forall i | 0 <= i < |b|
      ensures s[|a| + 1 + i] == b[i]
    {
    }
  }

  lemma GroupedParts(fd: int, l: set<int>, r: set<int>, own: seq<Stop>, left: seq<Stop>, right: seq<Stop>)
    requires Within(own, {fd}) && Within(left, l) && Within(right, r) && fd !in l && fd !in r && l !! r
    ensures Grouped(fd, l, r, own + left + right)
  {
  }

  /** The root's calls, those of the left part, those of the right part. */
  lemma RootThenParts(t: Shape, own: seq<Stop>, left: seq<Stop>, right: seq<Stop>)
    requires t.Node? && Sorted(InOrder(t)) && Within(own, {t.n.fd})
    requires Within(left, Fds(t.left)) && Within(right, Fds(t.right))
    requires RootsFirst(t.left, left) && RootsFirst(t.right, right)
    ensures RootsFirst(t, own + left + right)
  {
    PartsFirst(t, own, left, right);
    SortedSplit(t);
    hide Fds, Within, Sorted, InOrder;
    assert Fds(t.left) !! Fds(t.right);
    GroupedParts(t.n.fd, Fds(t.left), Fds(t.right), own, left, right);
  }

  lemma PartsFirst(t: Shape, own: seq<Stop>, left: seq<Stop>, right: seq<Stop>)
    requires t.Node? && Sorted(InOrder(t)) && Within(own, {t.n.fd})
    requires Within(left, Fds(t.left)) && Within(right, Fds(t.right))
    requires RootsFirst(t.left, left) && RootsFirst(t.right, right)
    ensures RootsFirst(t.left, own + left + right) && RootsFirst(t.right, own + left + right)
  {
    hide RootsFirst;
    SortedSplit(t);
    RootsFirstAmong(t.left, own, left, right);
    RootsFirstAmong(t.right, own + left, right, []);
    assert (own + left) + right + [] == own + left + right;
  }

  lemma WithinParts(t: Shape, own: seq<Stop>, left: seq<Stop>, right: seq<Stop>)
    requires t.Node? && Within(own, {t.n.fd}) && Within(left, Fds(t.left)) && Within(right, Fds(t.right))
    ensures Within(own + left + right, Fds(t))
  {
    FdsSplit(t);
  }

  lemma SmallerThenLarger(fd: int, own: seq<Stop>, left: seq<Stop>, right: seq<Stop>)
    requires Within(own, {fd}) && SmallerFirst(left) && SmallerFirst(right)
    requires (forall i :: 0 <= i < |left| ==> left[i].0.fd < fd) && forall i :: 0 <= i < |right| ==> fd < right[i].0.fd
    ensures SmallerFirst(own + left + right)
  {
    var calls, n, k0 := own + left + right, |own|, |own| + |left|;
    forall i, j, k | 0 <= i < j < k < |calls|
      ensures !(calls[k].0.fd < calls[i].0.fd < calls[j].0.fd)
    {
      if n <= i && k < k0 {
        assert calls[i] == left[i - n] && calls[j] == left[j - n] && calls[k] == left[k - n];
      } else if k0 <= i {
        assert calls[i] == right[i - k0] && calls[j] == right[j - k0] && calls[k] == right[k - k0];
      }
    }
  }

  lemma InlineThenParts(m: Mem, fd: int, own: seq<Stop>, left: seq<Stop>, right: seq<Stop>)
    requires Within(own, {fd}) && InlineFirst(m, own) && InlineFirst(m, left) && InlineFirst(m, right)
    requires (forall i :: 0 <= i < |left| ==> left[i].0.fd < fd) && forall i :: 0 <= i < |right| ==> fd < right[i].0.fd
    ensures InlineFirst(m, own + left + right)
  {
  }

  lemma OwnInline(m: Mem, x: Ptr)
    requires x in m && Valid(m[x].slots) && DistinctFds(m)
    ensures InlineFirst(m, CallsOf(m[x]))
  {
  }

  /** The walk keeps to the order of the tree. */
  lemma {:induction false} WalkOrder(m: Mem, t: Shape, p: Ptr)
    requires Holds(m, t, p) && Distinct(t) && Sorted(InOrder(t)) && SlotsOk(m) && DistinctFds(m)
    ensures Within(Order(m, t), Fds(t)) && InTreeOrder(m, t, Order(m, t))
    decreases t
  {
    if t.Node? {
      NodeHeld(m, t, p);
      SortedSplit(t);
      WalkOrder(m, t.left, t.n.at);
      WalkOrder(m, t.right, t.n.at);
      var own, left, right := CallsOf(m[t.n.at]), Order(m, t.left), Order(m, t.right);
      OwnFds(m[t.n.at]);
      OwnInline(m, t.n.at);
      WithinParts(t, own, left, right);
      RootThenParts(t, own, left, right);
      SmallerThenLarger(t.n.fd, own, left, right);
      InlineThenParts(m, t.n.fd, own, left, right);
    }
  }

  lemma NodeHeld(m: Mem, t: Shape, p: Ptr)
    requires Holds(m, t, p) && Distinct(t) && t.Node?
    ensures t.n.at in m && m[t.n.at].fd == t.n.fd
    ensures Holds(m, t.left, t.n.at) && Holds(m, t.right, t.n.at) && Distinct(t.left) && Distinct(t.right)
  {
    assert t.n.at in Nodes(t);
    SubtreesHeld(m, t, p);
  }

  /** Lines 84-91: the live events of one node. */
  method StopNode(m: Mem, x: Ptr) returns (calls: seq<Stop>)
    requires x in m && Valid(m[x].slots)
    ensures calls == CallsOf(m[x]) && forall q :: multiset(calls)[q] == Times(LiveAt(m, x, q))
  {
    hide LiveAt, LiveOpt, CallFor;
    var s, fd := m[x].slots, m[x].fd;
    var mainCall, auxCall := CallFor(fd, MainWait(s), Some(s.main)), CallFor(fd, AuxWait(s), s.aux);
    var exCall := CallFor(fd, WaitException, s.ex);
    calls := mainCall + auxCall + exCall;
    forall q: Stop
      ensures multiset(calls)[q] == Times(LiveAt(m, x, q))
    {
      assert multiset(calls)[q] == multiset(mainCall)[q] + multiset(auxCall)[q] + multiset(exCall)[q];
      NodeCount(m, x, q);
    }
  }

  /** The three storages of a node hold its pending events, each in one of them. */
  lemma NodeCount(m: Mem, x: Ptr, q: Stop)
    requires x in m && Valid(m[x].slots)
    ensures
      var s, fd := m[x].slots, m[x].fd;
      Times(LiveAt(m, x, q)) ==
      multiset(CallFor(fd, MainWait(s), Some(s.main)))[q] + multiset(CallFor(fd, AuxWait(s), s.aux))[q]
      + multiset(CallFor(fd, WaitException, s.ex))[q]
  {
    hide CallFor;
    assert q == (Key(q.0.fd, q.0.wt), q.1);
    var s := m[x].slots;
    match q.0.wt
    case WaitException =>
    case WaitRead => assert s.mainType == MainWrite || s.mainType == MainRead || s.mainType == Empty;
    case WaitWrite => assert s.mainType == MainWrite || s.mainType == MainRead || s.mainType == Empty;
  }

  /** stop_async_ops: each live event of the subtree is stopped exactly once, in the order of the tree. */
  method StopAsyncOps(m: Mem, node: Ptr, ghost t: Shape, ghost p: Ptr) returns (calls: seq<Stop>)
    requires Holds(m, t, p) && Distinct(t) && node == RootOf(t) && SlotsOk(m) && DistinctFds(m)
    ensures calls == Order(m, t) && forall q :: multiset(calls)[q] == Times(LiveIn(m, t, q))
    ensures Sorted(InOrder(t)) ==> InTreeOrder(m, t, calls)
    decreases t
  {
    hide InTreeOrder, Sorted;
    if Sorted(InOrder(t)) {
      WalkOrder(m, t, p);
    }
    if node == NULL {
      EmptyTree(m, t, p);
      return [];
    }
    SubtreesHeld(m, t, p);
    var own := StopNode(m, node);
    var left := StopAsyncOps(m, m[node].left, t.left, t.n.at);
    var right := StopAsyncOps(m, m[node].right, t.right, t.n.at);
    calls := own + left + right;
    forall q: Stop
      ensures multiset(calls)[q] == Times(LiveIn(m, t, q))
    {
      assert multiset(calls)[q] == multiset(own)[q] + multiset(left)[q] + multiset(right)[q];
      LiveSplit(m, t, q);
    }
  }

  lemma EmptyTree(m: Mem, t: Shape, p: Ptr)
    requires Holds(m, t, p) && RootOf(t) == NULL
    ensures t.Nil?
  {
    assert t.Node? ==> t.n.at in Nodes(t);
  }

  lemma SubtreesHeld(m: Mem, t: Shape, p: Ptr)
    requires Holds(m, t, p) && Distinct(t) && RootOf(t) != NULL
    ensures t.Node? && t.n.at in m && m[t.n.at].left == RootOf(t.left) && m[t.n.at].right == RootOf(t.right)
    ensures Holds(m, t.left, t.n.at) && Holds(m, t.right, t.n.at) && Distinct(t.left) && Distinct(t.right)
  {
  }

  /** No handler belongs to two of node, left subtree and right subtree. */
  lemma LiveSplit(m: Mem, t: Shape, q: Stop)
    requires t.Node? && Distinct(t) && DistinctFds(m)
    ensures
      Times(LiveIn(m, t, q))
      == Times(LiveAt(m, t.n.at, q)) + Times(LiveIn(m, t.left, q)) + Times(LiveIn(m, t.right, q))
  {
  }

  lemma RootFacts(m: Mem, root: Ptr, shape: Shape, polls: seq<PollFd>, owner: seq<Ptr>, timed: Timed, io: IoState)
    requires Represents(m, root, shape, polls, owner, timed, io)
    ensures Holds(m, shape, NULL) && Distinct(shape) && root == RootOf(shape) && SlotsOk(m) && DistinctFds(m)
  {
    if x :| x in m {
      PollOfNode(m, polls, owner, io.regs, x);
    }
  }

  /** So the walk from the root calls exactly the registered handlers, each once. */
  lemma StopsAll(m: Mem, root: Ptr, shape: Shape, polls: seq<PollFd>, owner: seq<Ptr>, timed: Timed, io: IoState,
      calls: seq<Stop>)
    requires Represents(m, root, shape, polls, owner, timed, io)
    requires forall q :: multiset(calls)[q] == Times(LiveIn(m, shape, q))
    ensures multiset(calls) == multiset(io.regs.Items)
  {
    forall q: Stop
      ensures multiset(calls)[q] == multiset(io.regs.Items)[q]
    {
      RegisteredIsLive(m, root, shape, polls, owner, timed, io, q);
      assert q in io.regs.Items <==> q.0 in io.regs && io.regs[q.0] == q.1;
    }
  }

  lemma RegisteredIsLive(m: Mem, root: Ptr, shape: Shape, polls: seq<PollFd>, owner: seq<Ptr>, timed: Timed,
      io: IoState, q: Stop)
    requires Represents(m, root, shape, polls, owner, timed, io)
    ensures LiveIn(m, shape, q) <==> q.0 in io.regs && io.regs[q.0] == q.1
  {
    hide Rep, Balanced, Sorted, HeapLinked, TimedOk, ModelTimed, SlotsOk;
    forall x | LiveAt(m, x, q)
      ensures q.0 in io.regs && io.regs[q.0] == q.1
    {
      assert Evt(x, q.0.wt) in Events(m) && Key(m[x].fd, q.0.wt) == q.0;
    }
    if q.0 in io.regs && io.regs[q.0] == q.1 {
      assert HasPoll(polls, q.0.fd);
      NodeOfPoll(m, polls, owner, q.0.fd);
      var x :| x in m && m[x].fd == q.0.fd;
      assert Key(m[x].fd, q.0.wt) == q.0 && Evt(x, q.0.wt) in Events(m);
      assert LiveAt(m, x, q);
    }
  }
}
