/** How the node tree, the event slots, the poll vector and the deadline heap together represent one
    registration state (src/rbnode.h, src/async_heap_entry.c, src/iosvc_sched.c, src/iosvc_dequeue.c). */
module RegistryRep {
  import opened IoTypes
  import opened EventSlots
  import opened RbShape
  import opened RbLinks
  import opened DeadlineHeap
  import opened IoModel

  /** async_heap_entry: the node and wait type of a timed event, the time limit it was given and since when. */
  datatype EvtRef = EvtRef(node: Ptr, wt: WaitType, ms: int, since: int)

  type Timed = seq<Entry<EvtRef>>

  datatype Evt = Evt(node: Ptr, wt: WaitType)

  function EvtOf(r: EvtRef): Evt { Evt(r.node, r.wt) }

  /** `ev` lists exactly the pending events of all nodes. */
  ghost predicate AreEvents(m: Mem, ev: map<Evt, EventData>) {
    (forall e :: e in ev <==> e.node in m && Pending(m[e.node].slots, e.wt).Some?)
    && (forall e :: e in ev ==> ev[e] == Pending(m[e.node].slots, e.wt).value)
  }

  lemma EventsExist(m: Mem)
    ensures exists ev :: AreEvents(m, ev)
  {
    var all := OfType(m, WaitRead) + OfType(m, WaitWrite) + OfType(m, WaitException);
    forall e: Evt | e.node in m
      ensures e in all
    {
      assert e in OfType(m, e.wt);
    }
    var ev := map e | e in all && Pending(m[e.node].slots, e.wt).Some? :: Pending(m[e.node].slots, e.wt).value;
    assert AreEvents(m, ev);
  }

  /** All live events in memory. */
  ghost function Events(m: Mem): (ev: map<Evt, EventData>)
    ensures AreEvents(m, ev)
  {
    EventsExist(m);
    var ev :| AreEvents(m, ev);
    ev
  }

  function OfType(m: Mem, wt: WaitType): (s: set<Evt>)
    ensures forall e :: e in s <==> e.node in m && e.wt == wt
  {
    var s := set x | x in m.Keys :: Evt(x, wt);
    assert forall e: Evt :: e.node in m && e.wt == wt ==> e == Evt(e.node, wt);
    s
  }

  // ---------- the back-indices of the deadline heap ----------

  /** Heap entries and live timed events are in bijection: every entry names a live event whose index is
      the entry's position, and every live event has no index or that of its own entry.  `gone` is an event
      whose entry has just been dropped and whose index no longer means anything. */
  ghost predicate HeapLinked(ev: map<Evt, EventData>, timed: Timed, gone: Option<Evt>) {
    (forall i :: 0 <= i < |timed| ==>
       EvtOf(timed[i].item) in ev && ev[EvtOf(timed[i].item)].ddl == i && Some(EvtOf(timed[i].item)) != gone)
    && (forall e :: e in ev && Some(e) != gone ==>
          ev[e].ddl == -1 || (0 <= ev[e].ddl < |timed| && EvtOf(timed[ev[e].ddl].item) == e))
  }

  function SetIdx(m: Mem, e: Evt, i: int): Mem
    requires e.node in m && Pending(m[e.node].slots, e.wt).Some?
  {
    m[e.node := m[e.node].(slots := SetDdl(m[e.node].slots, e.wt, i))]
  }

  /** Nothing but events differs. */
  ghost predicate SameNodes(m: Mem, m': Mem) {
    m'.Keys == m.Keys
    && forall x :: x in m ==>
         CellOf(m'[x]) == CellOf(m[x]) && m'[x].pollIdx == m[x].pollIdx && (Valid(m[x].slots) ==> Valid(m'[x].slots))
  }

  /** Nothing but heap indices differs. */
  ghost predicate SameButIdx(m: Mem, m': Mem) {
    SameNodes(m, m') && Events(m').Keys == Events(m).Keys
    && forall e :: e in Events(m) ==> Events(m')[e].callback == Events(m)[e].callback
  }

  lemma SetIdxEvents(m: Mem, e: Evt, i: int)
    requires e in Events(m)
    ensures Events(SetIdx(m, e, i)) == Events(m)[e := Events(m)[e].(ddl := i)]
    ensures SameButIdx(m, SetIdx(m, e, i))
  {
    var m' := SetIdx(m, e, i);
    assert Events(m').Keys == Events(m).Keys;
  }

  /** async_hp_ent_swp: the indices of the two events change places. */
  function SwapIdx(m: Mem, a: Evt, b: Evt): Mem
    requires a.node in m && Pending(m[a.node].slots, a.wt).Some?
    requires b.node in m && Pending(m[b.node].slots, b.wt).Some?
  {
    var i, j := Pending(m[a.node].slots, a.wt).value.ddl, Pending(m[b.node].slots, b.wt).value.ddl;
    SetIdx(SetIdx(m, a, j), b, i)
  }

  lemma SwapLinked(m: Mem, timed: Timed, i: nat, j: nat, gone: Option<Evt>)
    requires HeapLinked(Events(m), timed, gone) && i < |timed| && j < |timed|
    ensures EvtOf(timed[j].item) in Events(m) && EvtOf(timed[i].item) in Events(m)
    ensures
      var m' := SwapIdx(m, EvtOf(timed[j].item), EvtOf(timed[i].item));
      SameButIdx(m, m') && HeapLinked(Events(m'), Swap(timed, i, j), gone)
  {
    var a, b, ev := EvtOf(timed[j].item), EvtOf(timed[i].item), Events(m);
    assert a in ev && ev[a].ddl == j && b in ev && ev[b].ddl == i;
    var m1 := SetIdx(m, a, i);
    SetIdxEvents(m, a, i);
    SetIdxEvents(m1, b, j);
    SwapMapLinked(ev, timed, i, j, gone);
  }

  lemma SwapMapLinked(ev: map<Evt, EventData>, timed: Timed, i: nat, j: nat, gone: Option<Evt>)
    requires HeapLinked(ev, timed, gone) && i < |timed| && j < |timed|
    ensures
      var a, b := EvtOf(timed[j].item), EvtOf(timed[i].item);
      a in ev && b in ev
      && var ev1 := ev[a := ev[a].(ddl := i)];
      HeapLinked(ev1[b := ev1[b].(ddl := j)], Swap(timed, i, j), gone)
  {
  }

  lemma DropLast(ev: map<Evt, EventData>, timed: Timed)
    requires HeapLinked(ev, timed, None) && |timed| > 0
    ensures HeapLinked(ev, timed[..|timed| - 1], Some(EvtOf(timed[|timed| - 1].item)))
  {
  }

  lemma DeadlineLinked(ev: map<Evt, EventData>, timed: Timed, i: nat, d: int)
    requires HeapLinked(ev, timed, None) && i < |timed|
    ensures HeapLinked(ev, timed[i := timed[i].(deadline := d)], None)
  {
  }

  // ---------- nodes, poll entries and slots ----------

  ghost predicate TreeOk(m: Mem, root: Ptr, shape: Shape) {
    Rep(m, root, Top, shape) && Balanced(shape) && Sorted(InOrder(shape)) && m.Keys == Nodes(shape)
  }

  /** Nodes and poll entries are in bijection by descriptor and index; `owner` lists the node of each entry. */
  ghost predicate PollsLinked(m: Mem, polls: seq<PollFd>, owner: seq<Ptr>) {
    |owner| == |polls|
    && (forall i :: 0 <= i < |polls| ==>
          owner[i] in m && m[owner[i]].pollIdx == i && m[owner[i]].fd == polls[i].fd)
    && (forall x :: x in m ==> m[x].pollIdx < |owner| && owner[m[x].pollIdx] == x)
  }

  ghost predicate SlotsOk(m: Mem) { forall x :: x in m ==> Valid(m[x].slots) }

  /** No two nodes stand for the same descriptor. */
  ghost predicate DistinctFds(m: Mem) { forall x, y :: x in m && y in m && m[x].fd == m[y].fd ==> x == y }

  /** The live events of all nodes are exactly the registrations. */
  ghost predicate RegsLinked(m: Mem, ev: map<Evt, EventData>, regs: map<Key, Handler>) {
    forall x, wt :: x in m ==>
      (Evt(x, wt) in ev <==> Key(m[x].fd, wt) in regs)
      && (Evt(x, wt) in ev ==> ev[Evt(x, wt)].callback == Some(regs[Key(m[x].fd, wt)]))
  }

  /** A heap entry by descriptor instead of node address. */
  function TimerOf(m: Mem, r: EvtRef): Timer {
    Timer(Key(if r.node in m then m[r.node].fd else 0, r.wt), r.ms, r.since)
  }

  ghost function ModelTimed(m: Mem, timed: Timed): seq<Entry<Timer>> {
    MapItems(timed, (r: EvtRef) => TimerOf(m, r))
  }

  /** The four structures together represent the registration state `io`. */
  ghost predicate Represents(m: Mem, root: Ptr, shape: Shape, polls: seq<PollFd>, owner: seq<Ptr>, timed: Timed,
      io: IoState) {
    TreeOk(m, root, shape) && SlotsOk(m) && PollsLinked(m, polls, owner) && HeapLinked(Events(m), timed, None)
    && RegsLinked(m, Events(m), io.regs) && io.polls == polls && io.timed == ModelTimed(m, timed) && IoInv(io)
  }

  // ---------- consequences ----------

  lemma {:induction false} RepFrame(m: Mem, m': Mem, root: Ptr, c: Ctx, t: Shape)
    requires Rep(m, root, c, t)
    requires forall x :: x in Nodes(t) + CtxNodes(c) && x in m ==> x in m' && CellOf(m'[x]) == CellOf(m[x])
    ensures Rep(m', root, c, t)
  {
  }

  lemma SameKeepsTree(m: Mem, m': Mem, root: Ptr, shape: Shape)
    requires TreeOk(m, root, shape) && m'.Keys == m.Keys
    requires forall x :: x in m ==> CellOf(m'[x]) == CellOf(m[x])
    ensures TreeOk(m', root, shape)
  {
  }

  lemma SameKeepsTimed(m: Mem, m': Mem, timed: Timed)
    requires m'.Keys == m.Keys && forall x :: x in m ==> m'[x].fd == m[x].fd
    ensures ModelTimed(m', timed) == ModelTimed(m, timed)
  {
  }

  /** A descriptor has a poll entry exactly when it has a node. */
  lemma NodeOfPoll(m: Mem, polls: seq<PollFd>, owner: seq<Ptr>, fd: int)
    requires PollsLinked(m, polls, owner)
    ensures HasPoll(polls, fd) <==> exists x :: x in m && m[x].fd == fd
  {
  }

  lemma PollOfNode(m: Mem, polls: seq<PollFd>, owner: seq<Ptr>, regs: map<Key, Handler>, x: Ptr)
    requires PollsLinked(m, polls, owner) && PollsOk(polls, regs) && x in m
    ensures m[x].pollIdx < |polls| && FindPoll(polls, m[x].fd) == m[x].pollIdx
    ensures DistinctFds(m)
  {
    FindPollIs(polls, m[x].pollIdx);
    forall x, y | x in m && y in m && m[y].fd == m[x].fd
      ensures y == x
    {
      FindPollIs(polls, m[x].pollIdx);
      FindPollIs(polls, m[y].pollIdx);
    }
  }

  /** An event's heap index is where the model finds its timer. */
  lemma TimerOfNode(m: Mem, timed: Timed, k: Key, x: Ptr)
    requires DistinctFds(m) && HeapLinked(Events(m), timed, None) && x in m && k.fd == m[x].fd
      && Evt(x, k.wt) in Events(m)
    ensures
      var d := Events(m)[Evt(x, k.wt)].ddl;
      FindTimer(ModelTimed(m, timed), k) == if d == -1 then |timed| else d
  {
  }
}
