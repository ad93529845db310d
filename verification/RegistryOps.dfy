/** Each change that enqueue, dequeue and cleanup make to the four structures is the corresponding change
    of the registration state. */
module RegistryOps {
  import opened IoTypes
  import opened EventSlots
  import opened RbShape
  import opened RbLinks
  import opened DeadlineHeap
  import opened IoModel
  import opened RegistryRep

  function PutSlots(m: Mem, x: Ptr, s: Slots): Mem
    requires x in m
  {
    m[x := m[x].(slots := s)]
  }

  function PutEvents(polls: seq<PollFd>, i: nat, e: Flags): seq<PollFd>
    requires i < |polls|
  {
    polls[i := polls[i].(events := e)]
  }

  // ---------- scheduling on an existing node ----------

  function Scheduled(m: Mem, x: Ptr, wt: WaitType, h: Handler, junk: EventData): Mem
    requires x in m && Valid(m[x].slots) && Pending(m[x].slots, wt).None?
  {
    PutSlots(m, x, Schedule(m[x].slots, wt, EventData(Some(h), -1), junk))
  }

  lemma ScheduledEvents(m: Mem, x: Ptr, wt: WaitType, h: Handler, junk: EventData)
    requires x in m && Valid(m[x].slots) && Pending(m[x].slots, wt).None?
    ensures Events(Scheduled(m, x, wt, h, junk)) == Events(m)[Evt(x, wt) := EventData(Some(h), -1)]
    ensures SameNodes(m, Scheduled(m, x, wt, h, junk))
  {
    var m' := Scheduled(m, x, wt, h, junk);
    assert Events(m').Keys == Events(m).Keys + {Evt(x, wt)};
  }

  lemma AddedHeap(ev: map<Evt, EventData>, timed: Timed, e: Evt, d: EventData)
    requires HeapLinked(ev, timed, None) && e !in ev && d.ddl == -1
    ensures HeapLinked(ev[e := d], timed, None)
  {
  }

  lemma AddedRegs(m: Mem, ev: map<Evt, EventData>, regs: map<Key, Handler>, x: Ptr, wt: WaitType, h: Handler)
    requires RegsLinked(m, ev, regs) && DistinctFds(m) && x in m
    ensures RegsLinked(m, ev[Evt(x, wt) := EventData(Some(h), -1)], regs[Key(m[x].fd, wt) := h])
  {
  }

  lemma RegsSameNodes(m: Mem, m': Mem, ev: map<Evt, EventData>, regs: map<Key, Handler>)
    requires RegsLinked(m, ev, regs) && SameNodes(m, m')
    ensures RegsLinked(m', ev, regs)
  {
  }

  lemma PollsSameNodes(m: Mem, m': Mem, polls: seq<PollFd>, owner: seq<Ptr>, i: nat, e: Flags)
    requires PollsLinked(m, polls, owner) && SameNodes(m, m') && i < |polls|
    ensures PollsLinked(m', PutEvents(polls, i, e), owner)
  {
  }

  lemma EnqueueExisting(m: Mem, root: Ptr, shape: Shape, polls: seq<PollFd>, owner: seq<Ptr>, timed: Timed,
      io: IoState, x: Ptr, wt: WaitType, h: Handler, junk: EventData)
    requires Represents(m, root, shape, polls, owner, timed, io) && x in m && Pending(m[x].slots, wt).None?
    ensures m[x].pollIdx < |polls| && Key(m[x].fd, wt) !in io.regs && Valid(m[x].slots)
    ensures
      var i := m[x].pollIdx;
      Represents(Scheduled(m, x, wt, h, junk), root, shape, PutEvents(polls, i, polls[i].events + SchedMask(wt)),
                 owner, timed, Enqueue(io, Key(m[x].fd, wt), h))
  {
    hide Rep, Balanced, Sorted, PollsOk, TimedOk, HeapLinked, FindPoll, Schedule;
    var m', k := Scheduled(m, x, wt, h, junk), Key(m[x].fd, wt);
    var i, d := m[x].pollIdx, EventData(Some(h), -1);
    assert Evt(x, wt) !in Events(m);
    ScheduledEvents(m, x, wt, h, junk);
    PollOfNode(m, polls, owner, io.regs, x);
    AddedHeap(Events(m), timed, Evt(x, wt), d);
    AddedRegs(m, Events(m), io.regs, x, wt, h);
    RegsSameNodes(m, m', Events(m'), io.regs[k := h]);
    PollsSameNodes(m, m', polls, owner, i, polls[i].events + SchedMask(wt));
    SameKeepsTree(m, m', root, shape);
    SameKeepsTimed(m, m', timed);
    OperationsKeepInv(io, k, h);
  }

  // ---------- a new node ----------

  /** `m'` is `m` with one more node at `p`; the payload of the others is untouched. */
  ghost predicate Grown(m: Mem, m': Mem, p: Ptr) {
    p !in m && m'.Keys == m.Keys + {p}
    && forall x :: x in m ==> m'[x].fd == m[x].fd && m'[x].pollIdx == m[x].pollIdx && m'[x].slots == m[x].slots
  }

  /** The slots hold exactly the new event. */
  predicate JustScheduled(s: Slots, wt: WaitType, h: Handler) {
    Valid(s) && forall w :: Pending(s, w) == if w == wt then Some(EventData(Some(h), -1)) else None
  }

  lemma GrownEvents(m: Mem, m': Mem, p: Ptr, wt: WaitType, h: Handler)
    requires Grown(m, m', p) && JustScheduled(m'[p].slots, wt, h)
    ensures Events(m') == Events(m)[Evt(p, wt) := EventData(Some(h), -1)]
    ensures SlotsOk(m) ==> SlotsOk(m')
  {
    var e0 := Evt(p, wt);
    forall e
      ensures e in Events(m') <==> e in Events(m) || e == e0
    {
      if e.node == p {
        assert e == Evt(p, e.wt);
      }
    }
    forall e | e in Events(m')
      ensures Events(m')[e] == if e == e0 then EventData(Some(h), -1) else Events(m)[e]
    {
      if e.node == p {
        assert e == e0;
      }
    }
  }

  lemma GrownRegs(m: Mem, m': Mem, ev: map<Evt, EventData>, regs: map<Key, Handler>, p: Ptr, wt: WaitType, h: Handler)
    requires Grown(m, m', p) && RegsLinked(m, ev, regs) && (forall e :: e in ev ==> e.node in m)
    requires (forall x :: x in m ==> m[x].fd != m'[p].fd) && (forall w :: Key(m'[p].fd, w) !in regs)
    ensures RegsLinked(m', ev[Evt(p, wt) := EventData(Some(h), -1)], regs[Key(m'[p].fd, wt) := h])
  {
  }

  lemma GrownPolls(m: Mem, m': Mem, polls: seq<PollFd>, owner: seq<Ptr>, p: Ptr, e: Flags)
    requires Grown(m, m', p) && PollsLinked(m, polls, owner) && m'[p].pollIdx == |polls|
    ensures PollsLinked(m', polls + [PollFd(m'[p].fd, e, {})], owner + [p])
  {
  }

  lemma GrownTimed(m: Mem, m': Mem, timed: Timed, p: Ptr)
    requires Grown(m, m', p) && HeapLinked(Events(m), timed, None)
    ensures ModelTimed(m', timed) == ModelTimed(m, timed)
  {
  }

  lemma EnqueueNew(m: Mem, m': Mem, root: Ptr, root': Ptr, shape: Shape, shape': Shape, polls: seq<PollFd>,
      owner: seq<Ptr>, timed: Timed, io: IoState, p: Ptr, wt: WaitType, h: Handler)
    requires Represents(m, root, shape, polls, owner, timed, io) && Grown(m, m', p)
    requires TreeOk(m', root', shape') && JustScheduled(m'[p].slots, wt, h) && m'[p].pollIdx == |polls|
    requires !HasPoll(polls, m'[p].fd)
    ensures
      var fd := m'[p].fd;
      Key(fd, wt) !in io.regs
      && Represents(m', root', shape', polls + [PollFd(fd, SchedMask(wt), {})], owner + [p], timed,
        Enqueue(io, Key(fd, wt), h))
  {
    var fd := m'[p].fd;
    FreshEvents(io, fd);
    NodeOfPoll(m, polls, owner, fd);
    GrownEvents(m, m', p, wt, h);
    AddedHeap(Events(m), timed, Evt(p, wt), EventData(Some(h), -1));
    GrownRegs(m, m', Events(m), io.regs, p, wt, h);
    GrownPolls(m, m', polls, owner, p, SchedMask(wt));
    GrownTimed(m, m', timed, p);
    OperationsKeepInv(io, Key(fd, wt), h);
  }

  // ---------- vacating an event ----------

  function Vacated(m: Mem, x: Ptr, wt: WaitType): Mem
    requires x in m && Pending(m[x].slots, wt).Some? && Valid(m[x].slots)
  {
    PutSlots(m, x, Vacate(m[x].slots, wt))
  }

  lemma VacatedEvents(m: Mem, x: Ptr, wt: WaitType)
    requires x in m && Pending(m[x].slots, wt).Some? && Valid(m[x].slots)
    ensures Events(Vacated(m, x, wt)) == Events(m) - {Evt(x, wt)}
    ensures SameNodes(m, Vacated(m, x, wt))
  {
    var m' := Vacated(m, x, wt);
    assert Events(m').Keys == Events(m).Keys - {Evt(x, wt)};
  }

  lemma RemovedHeap(ev: map<Evt, EventData>, timed: Timed, e: Evt, gone: Option<Evt>)
    requires HeapLinked(ev, timed, gone) && e in ev && (gone == Some(e) || (gone.None? && ev[e].ddl == -1))
    ensures HeapLinked(ev - {e}, timed, None)
  {
  }

  lemma RemovedRegs(m: Mem, ev: map<Evt, EventData>, regs: map<Key, Handler>, x: Ptr, wt: WaitType)
    requires RegsLinked(m, ev, regs) && DistinctFds(m) && x in m
    ensures RegsLinked(m, ev - {Evt(x, wt)}, regs - {Key(m[x].fd, wt)})
  {
  }

  lemma RegsSameIdx(m: Mem, m': Mem, regs: map<Key, Handler>)
    requires RegsLinked(m, Events(m), regs) && SameButIdx(m, m')
    ensures RegsLinked(m', Events(m'), regs)
  {
  }

  /** From the state in which the heap entry is gone to the state after the whole dequeue. */
  lemma DequeueRep(m: Mem, m1: Mem, root: Ptr, shape: Shape, polls: seq<PollFd>, owner: seq<Ptr>, timed: Timed,
      timed1: Timed, io: IoState, x: Ptr, wt: WaitType, gone: Option<Evt>)
    requires Represents(m, root, shape, polls, owner, timed, io) && SameButIdx(m, m1)
    requires Evt(x, wt) in Events(m) && HeapLinked(Events(m1), timed1, gone)
    requires gone == Some(Evt(x, wt)) || (gone.None? && Events(m1)[Evt(x, wt)].ddl == -1)
    requires ModelTimed(m, timed1) == DropTimer(io.timed, Key(m[x].fd, wt))
    ensures m[x].pollIdx < |polls| && HasPoll(io.polls, m[x].fd) && Key(m[x].fd, wt) in io.regs
    ensures x in m1 && Pending(m1[x].slots, wt).Some? && Valid(m1[x].slots)
    ensures
      var i := m[x].pollIdx;
      Represents(Vacated(m1, x, wt), root, shape, PutEvents(polls, i, DropMask(polls[i].events, wt)), owner, timed1,
                 Dequeue(io, Key(m[x].fd, wt)))
  {
    assert Evt(x, wt) in Events(m1) && Valid(m[x].slots);
    var m', k, i := Vacated(m1, x, wt), Key(m[x].fd, wt), m[x].pollIdx;
    PollOfNode(m, polls, owner, io.regs, x);
    VacatedEvents(m1, x, wt);
    assert SameNodes(m, m');
    RemovedHeap(Events(m1), timed1, Evt(x, wt), gone);
    RegsSameIdx(m, m1, io.regs);
    assert DistinctFds(m1);
    RemovedRegs(m1, Events(m1), io.regs, x, wt);
    RegsSameNodes(m1, m', Events(m'), io.regs - {k});
    PollsSameNodes(m, m', polls, owner, i, DropMask(polls[i].events, wt));
    SameKeepsTree(m, m', root, shape);
    SameKeepsTimed(m, m', timed1);
    OperationsKeepInv(io, k, io.regs[k]);
  }

  // ---------- removing a node without events ----------

  /** `m'` is `m` without the node at `x`; the payload of the others is untouched. */
  ghost predicate Shrunk(m: Mem, m': Mem, x: Ptr) {
    x in m && m'.Keys == m.Keys - {x}
    && forall y :: y in m' ==> m'[y].fd == m[y].fd && m'[y].pollIdx == m[y].pollIdx && m'[y].slots == m[y].slots
  }

  /** Swap-remove at `i`. */
  function DropAt<T>(s: seq<T>, i: nat): seq<T>
    requires i < |s|
  {
    s[i := s[|s| - 1]][..|s| - 1]
  }

  /** The node of the entry that moved to `i` learns its new index. */
  function Reindexed(m: Mem, owner: seq<Ptr>, i: nat): Mem
    requires i < |owner| && (i < |owner| - 1 ==> owner[|owner| - 1] in m)
  {
    if i == |owner| - 1 then m
    else m[owner[|owner| - 1] := m[owner[|owner| - 1]].(pollIdx := i)]
  }

  lemma ShrunkEvents(m: Mem, m': Mem, x: Ptr)
    requires Shrunk(m, m', x) && forall wt :: Evt(x, wt) !in Events(m)
    ensures Events(m') == Events(m)
    ensures SlotsOk(m) ==> SlotsOk(m')
  {
  }

  lemma ReindexedEvents(m: Mem, owner: seq<Ptr>, i: nat)
    requires i < |owner| && (i < |owner| - 1 ==> owner[|owner| - 1] in m)
    ensures Events(Reindexed(m, owner, i)) == Events(m)
    ensures SlotsOk(m) ==> SlotsOk(Reindexed(m, owner, i))
  {
  }

  lemma ReindexedTree(m: Mem, root: Ptr, shape: Shape, owner: seq<Ptr>, i: nat)
    requires TreeOk(m, root, shape) && i < |owner| && (i < |owner| - 1 ==> owner[|owner| - 1] in m)
    ensures TreeOk(Reindexed(m, owner, i), root, shape)
  {
    SameKeepsTree(m, Reindexed(m, owner, i), root, shape);
  }

  lemma ShrunkPolls(m: Mem, m': Mem, polls: seq<PollFd>, owner: seq<Ptr>, x: Ptr)
    requires Shrunk(m, m', x) && PollsLinked(m, polls, owner)
    ensures
      var i := m[x].pollIdx;
      i < |owner| && (i < |owner| - 1 ==> owner[|owner| - 1] in m')
      && PollsLinked(Reindexed(m', owner, i), DropAt(polls, i), DropAt(owner, i))
  {
    var i, n := m[x].pollIdx, |owner| - 1;
    assert i < n ==> owner[n] in m && m[owner[n]].pollIdx == n && owner[n] != x;
    var m2, o2 := Reindexed(m', owner, i), DropAt(owner, i);
    forall y | y in m2
      ensures m2[y].pollIdx < |o2| && o2[m2[y].pollIdx] == y
    {
      assert owner[m[y].pollIdx] == y && owner[i] == x;
    }
  }

  lemma ShrunkRegs(m: Mem, m': Mem, ev: map<Evt, EventData>, regs: map<Key, Handler>, x: Ptr, owner: seq<Ptr>, i: nat)
    requires Shrunk(m, m', x) && RegsLinked(m, ev, regs) && i < |owner|
      && (i < |owner| - 1 ==> owner[|owner| - 1] in m')
    ensures RegsLinked(Reindexed(m', owner, i), ev, regs)
  {
  }

  lemma ShrunkTimed(m: Mem, m': Mem, timed: Timed, x: Ptr, owner: seq<Ptr>, i: nat)
    requires Shrunk(m, m', x) && i < |owner| && (i < |owner| - 1 ==> owner[|owner| - 1] in m')
    requires HeapLinked(Events(m), timed, None) && forall wt :: Evt(x, wt) !in Events(m)
    ensures ModelTimed(Reindexed(m', owner, i), timed) == ModelTimed(m, timed)
  {
    forall j | 0 <= j < |timed|
      ensures TimerOf(Reindexed(m', owner, i), timed[j].item) == TimerOf(m, timed[j].item)
    {
      assert EvtOf(timed[j].item) in Events(m);
    }
  }

  lemma NoEventsAt(m: Mem, polls: seq<PollFd>, owner: seq<Ptr>, io: IoState, x: Ptr)
    requires PollsLinked(m, polls, owner) && RegsLinked(m, Events(m), io.regs) && io.polls == polls && IoInv(io)
    requires x in m && m[x].pollIdx < |polls| && polls[m[x].pollIdx].events == {}
    ensures FindPoll(polls, m[x].fd) == m[x].pollIdx && EventsOf(io.regs, m[x].fd) == {}
    ensures forall wt :: Evt(x, wt) !in Events(m)
    ensures IoInv(Cleanup(io, m[x].fd))
  {
    var fd := m[x].fd;
    PollOfNode(m, polls, owner, io.regs, x);
    EventsEmptyIff(io.regs, fd);
    forall wt
      ensures Evt(x, wt) !in Events(m)
    {
      assert Key(fd, wt) !in io.regs;
    }
    OperationsKeepInv(io, Key(fd, WaitRead), Handler(0, []));
  }

  lemma CleanupRep(m: Mem, m': Mem, root: Ptr, root': Ptr, shape: Shape, shape': Shape, polls: seq<PollFd>,
      owner: seq<Ptr>, timed: Timed, io: IoState, x: Ptr)
    requires Represents(m, root, shape, polls, owner, timed, io) && Shrunk(m, m', x) && TreeOk(m', root', shape')
    requires m[x].pollIdx < |polls| && polls[m[x].pollIdx].events == {}
    ensures
      var i := m[x].pollIdx;
      HasPoll(io.polls, m[x].fd) && i < |owner| && (i < |owner| - 1 ==> owner[|owner| - 1] in m')
      && Represents(Reindexed(m', owner, i), root', shape', DropAt(polls, i), DropAt(owner, i), timed,
        Cleanup(io, m[x].fd))
  {
    hide Rep, Balanced, Sorted, RegsLinked, PollsOk, TimedOk, HeapLinked, AreEvents, EventsOf, FindPoll;
    var i := m[x].pollIdx;
    NoEventsAt(m, polls, owner, io, x);
    ShrunkEvents(m, m', x);
    ShrunkPolls(m, m', polls, owner, x);
    ReindexedEvents(m', owner, i);
    ShrunkRegs(m, m', Events(m), io.regs, x, owner, i);
    ShrunkTimed(m, m', timed, x, owner, i);
    ReindexedTree(m', root', shape', owner, i);
  }
}
