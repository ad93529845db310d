/** The state of the event loop as one value, what holds of it between any two steps, and what one step of a
    callback may do to it (src/iosvc_def.h, src/iosvc_post.c, src/iosvc_sched.c, src/iosvc_cancel.c). */
module LoopState {
  import opened IoTypes
  import opened DeadlineHeap
  import opened IoModel
  import opened Weights
  import RbShape
  import Registry

  /** An element of the heap of delayed handlers; `ms` is the requested delay. */
  datatype Delayed = Delayed(hnd: Handler, ms: int)

  /** One invocation of a handler by the loop, with the status and the remaining time its owner is given.
      `at` is the clock reading that the code compares with, 0 if it takes none, `least` tells whether the deadline
      was the least of both heaps, `revents` is what poll() reported for the descriptor. */
  datatype Call =
    | RunPost(hnd: Handler)
    | RunDelay(entry: Entry<Delayed>, status: ErrCode, at: int, least: bool)
    | RunEvent(key: Key, hnd: Handler, status: ErrCode, timer: Option<Entry<Timer>>, remaining: Option<int>,
               at: int, revents: Flags, least: bool)

  /** The service with its node tree, and the books kept about it: accepted posts in order, accepted delayed
      handlers, accepted registrations, invocations, removed descriptors, descriptors in the middle of being served
      (`open`), and entries whose handler is already invoked but which are still stored (`running`, `heldDelays`,
      `heldEvents`). */
  datatype Snap = Snap(
    status: Status, sync: seq<Handler>, delays: seq<Entry<Delayed>>, io: IoState, shape: RbShape.Shape, now: int,
    posts: seq<Handler>, taken: multiset<Entry<Delayed>>, regd: multiset<(Key, Handler)>, log: seq<Call>,
    removed: seq<int>, open: set<int>,
    running: nat, heldDelays: multiset<Entry<Delayed>>, heldEvents: multiset<(Key, Handler)>)

  // ---------- the books ----------

  function RanPosts(log: seq<Call>): seq<Handler> {
    if log == [] then []
    else
      var c := log[|log| - 1];
      RanPosts(log[..|log| - 1]) + if c.RunPost? then [c.hnd] else []
  }

  function RanDelays(log: seq<Call>): multiset<Entry<Delayed>> {
    if log == [] then multiset{}
    else
      var c := log[|log| - 1];
      RanDelays(log[..|log| - 1]) + if c.RunDelay? then multiset{c.entry} else multiset{}
  }

  function RanEvents(log: seq<Call>): multiset<(Key, Handler)> {
    if log == [] then multiset{}
    else
      var c := log[|log| - 1];
      RanEvents(log[..|log| - 1]) + if c.RunEvent? then multiset{(c.key, c.hnd)} else multiset{}
  }

  lemma RanPush(log: seq<Call>, c: Call)
    ensures RanPosts(log + [c]) == RanPosts(log) + if c.RunPost? then [c.hnd] else []
    ensures RanDelays(log + [c]) == RanDelays(log) + if c.RunDelay? then multiset{c.entry} else multiset{}
    ensures RanEvents(log + [c]) == RanEvents(log) + if c.RunEvent? then multiset{(c.key, c.hnd)} else multiset{}
  {
  }

  /** Conservation: posted handlers have run or still queue, in the order of posting; every accepted delayed
      handler and every accepted registration has been invoked once or is still stored once. */
  ghost predicate Conserved(s: Snap) {
    && s.running <= |s.sync| && s.posts == RanPosts(s.log) + s.sync[s.running..]
    && s.heldDelays <= multiset(s.delays) && s.taken + s.heldDelays == RanDelays(s.log) + multiset(s.delays)
    && s.heldEvents <= multiset(s.io.regs.Items)
      && s.regd + s.heldEvents == RanEvents(s.log) + multiset(s.io.regs.Items)
  }

  // ---------- invariants ----------

  predicate DelaysOk(delays: seq<Entry<Delayed>>, now: int) {
    HeapOrdered(delays)
    && forall e :: e in delays ==> e.deadline >= 0 && e.item.ms >= 0 && e.deadline <= now + e.item.ms
  }

  /** No deadline lies further ahead than was asked for. */
  predicate TimersDue(timed: seq<Entry<Timer>>, now: int) {
    forall e :: e in timed ==> e.deadline == e.item.since + e.item.ms && e.item.since <= now
  }

  /** A poll entry without events belongs to a descriptor that is just being served. */
  predicate NoIdle(polls: seq<PollFd>, open: set<int>) {
    forall i :: 0 <= i < |polls| && polls[i].events == {} ==> polls[i].fd in open
  }

  /** The flags on which a handler for `wt` is called with EIO_OK. */
  predicate Fires(revents: Flags, wt: WaitType) {
    match wt
    case WaitException => PollPri in revents
    case WaitRead => PollIn in revents || PollHup in revents || PollRdband in revents || PollRdnorm in revents
    case WaitWrite => PollOut in revents || PollWrnorm in revents || PollWrband in revents
  }

  function Max(a: int, b: int): int { if a < b then b else a }

  /** What is true of every invocation. */
  predicate CallOk(c: Call) {
    match c
    case RunPost(_) => true
    case RunDelay(e, status, at, least) =>
      status == EioStopped || (status == EioOk && e.deadline <= at && least)
    case RunEvent(k, _, status, timer, remaining, at, revents, least) =>
      (timer.None? <==> remaining.None?)
      && (timer.Some? ==>
            timer.value.item.key == k && timer.value.deadline == timer.value.item.since + timer.value.item.ms)
      && (timer.Some? && status != EioTimeout && status != EioCancelled ==>
        remaining.value == RemainingAt(timer.value.deadline, at))
      && match status {
        case EioOk => PollNval !in revents && Fires(revents, k.wt)
        case EioInvarg => PollNval in revents
        case EioTimeout => timer.Some? && timer.value.deadline <= at && least && remaining == Some(0)
        case EioCancelled => timer.Some? ==> remaining == Some(timer.value.deadline)
        case EioStopped => timer.Some? ==> 0 <= remaining.value <= Max(0, timer.value.item.ms)
        case _ => false
      }
  }

  predicate LogOk(log: seq<Call>) { forall i :: 0 <= i < |log| ==> CallOk(log[i]) }

  ghost predicate Ok(s: Snap) {
    IoInv(s.io) && DelaysOk(s.delays, s.now) && TimersDue(s.io.timed, s.now) && s.now >= 0
    && Conserved(s) && LogOk(s.log) && NoIdle(s.io.polls, s.open)
  }

  /** The work that accepted handlers can still cause. */
  ghost function Work(s: Snap): nat {
    Sum(multiset(Queued(s)), Weight)
    + Sum(multiset(s.delays) - s.heldDelays, DelayWeight)
    + Sum(multiset(s.io.regs.Items) - s.heldEvents, RegWeight)
  }

  /** The posted handlers that have not been started. */
  function Queued(s: Snap): seq<Handler> { if s.running <= |s.sync| then s.sync[s.running..] else [] }

  function DelayWeight(e: Entry<Delayed>): nat { Weight(e.item.hnd) }

  function RegWeight(p: (Key, Handler)): nat { Weight(p.1) }

  // ---------- what callbacks may do ----------

  predicate Stopped(c: Call) { (c.RunDelay? || c.RunEvent?) && c.status == EioStopped }

  /** The handler `h` registered for `k` has been invoked since the log had length `from`. */
  predicate Served(log: seq<Call>, from: nat, k: Key, h: Handler) {
    exists i :: from <= i < |log| && log[i].RunEvent? && log[i].key == k && log[i].hnd == h
  }

  /** A registration goes away only by being served. */
  predicate Accounted(regs: map<Key, Handler>, from: nat, regs': map<Key, Handler>, log': seq<Call>) {
    forall k :: k in regs ==> (k in regs' && regs'[k] == regs[k]) || Served(log', from, k, regs[k])
  }

  /** Old entries keep their place and their revents, new ones come behind without revents. */
  predicate PollsKept(polls: seq<PollFd>, polls': seq<PollFd>) {
    |polls| <= |polls'|
    && (forall i :: 0 <= i < |polls| ==> polls'[i].fd == polls[i].fd && polls'[i].revents == polls[i].revents)
    && forall i :: |polls| <= i < |polls'| ==> polls'[i].revents == {}
  }

  /** An entry for `fd` with these revents is in the vector. */
  predicate Listed(polls: seq<PollFd>, fd: int, revents: Flags) {
    exists p :: p in polls && p.fd == fd && p.revents == revents
  }

  ghost predicate EntryKept(polls: seq<PollFd>, polls': seq<PollFd>, fd: int) {
    forall revents :: Listed(polls, fd, revents) ==> Listed(polls', fd, revents)
  }

  /** Nothing is reported that poll() has not reported, and a descriptor keeps its report as long as something
      registered for it has not been served. */
  ghost predicate Tracks(a: Snap, b: Snap) {
    && (forall fd, revents :: revents != {} && Listed(b.io.polls, fd, revents) ==> Listed(a.io.polls, fd, revents))
    && forall k :: k in a.io.regs ==>
         || Served(b.log, |a.log|, k, a.io.regs[k])
         || (k in b.io.regs && b.io.regs[k] == a.io.regs[k] && EntryKept(a.io.polls, b.io.polls, k.fd))
  }

  lemma TracksTrans(a: Snap, b: Snap, c: Snap)
    requires Tracks(a, b) && Tracks(b, c) && a.log <= b.log <= c.log
    ensures Tracks(a, c)
  {
    forall k | k in a.io.regs
      ensures
        || Served(c.log, |a.log|, k, a.io.regs[k])
        || (k in c.io.regs && c.io.regs[k] == a.io.regs[k] && EntryKept(a.io.polls, c.io.polls, k.fd))
    {
    }
  }

  /** A node stays where it is unless its descriptor is removed. */
  ghost predicate NodesKept(a: Snap, b: Snap)
    requires |a.removed| <= |b.removed|
  {
    forall n :: n in RbShape.InOrder(a.shape) && n.fd !in b.removed[|a.removed|..] ==> n in RbShape.InOrder(b.shape)
  }

  predicate StatusSteps(a: Status, b: Status) { a == b || (a.Running? && b.Stopping?) }

  /** An expired entry on top of the delay heap stays there. */
  predicate TopKept(a: Snap, b: Snap) {
    a.delays != [] && a.delays[0].deadline <= a.now ==> b.delays != [] && b.delays[0] == a.delays[0]
  }

  /** Callbacks only add delayed handlers. */
  predicate DelaysGrow(a: Snap, b: Snap) {
    a.taken <= b.taken && a.taken + multiset(b.delays) == b.taken + multiset(a.delays)
  }

  lemma DelaysGrowTrans(a: Snap, b: Snap, c: Snap)
    requires DelaysGrow(a, b) && DelaysGrow(b, c)
    ensures DelaysGrow(a, c)
  {
    forall e
      ensures (a.taken + multiset(c.delays))[e] == (c.taken + multiset(a.delays))[e]
    {
      assert (a.taken + multiset(b.delays))[e] == (b.taken + multiset(a.delays))[e];
      assert (b.taken + multiset(c.delays))[e] == (c.taken + multiset(b.delays))[e];
    }
  }

  predicate NoStops(log: seq<Call>, from: nat) { forall i :: from <= i < |log| ==> !Stopped(log[i]) }

  ghost predicate Steps(a: Snap, b: Snap) {
    && StatusSteps(a.status, b.status) && a.now <= b.now
    && a.log <= b.log && a.removed <= b.removed && a.sync <= b.sync && a.posts <= b.posts
    && b.open == a.open && b.running == a.running && b.heldDelays == a.heldDelays && b.heldEvents == a.heldEvents
    && DelaysGrow(a, b) && TopKept(a, b)
    && (|b.removed| == |a.removed| ==> PollsKept(a.io.polls, b.io.polls))
    && (|b.removed| == |a.removed| && |b.io.polls| == |a.io.polls| ==> b.shape == a.shape)
    && NodesKept(a, b) && NoStops(b.log, |a.log|) && Tracks(a, b)
    && Accounted(a.io.regs, |a.log|, b.io.regs, b.log)
  }

  function ScriptOf(c: Call): seq<Action> { if c.RunDelay? then c.entry.item.hnd.script else c.hnd.script }

  /** A handler invoked since `from` and before position `i` asks for `k` to be cancelled. */
  predicate Asked(log: seq<Call>, from: nat, i: nat, k: Key)
    requires i <= |log|
  {
    exists j :: from <= j < i && Cancel(k.fd, k.wt) in ScriptOf(log[j])
  }

  /** All that a callback itself invokes is events that it cancels, or that their handlers in turn cancel. */
  predicate OnlyCancels(log: seq<Call>, from: nat, script: seq<Action>) {
    forall i :: from <= i < |log| ==>
      log[i].RunEvent? && log[i].status == EioCancelled
      && (Cancel(log[i].key.fd, log[i].key.wt) in script || Asked(log, from, i, log[i].key))
  }

  /** What is logged after position `i` is what the handler invoked there has cancelled. */
  predicate Following(log: seq<Call>, i: nat) { i < |log| && OnlyCancels(log, i + 1, ScriptOf(log[i])) }

  /** Once the service is stopping, callbacks achieve nothing any more. */
  ghost predicate Quiet(a: Snap, b: Snap) { a.status.Stopping? || a.status.Done? ==> b == a.(now := b.now) }

  lemma StepsRefl(a: Snap)
    ensures Steps(a, a)
  {
  }

  lemma AccountedTrans(r0: map<Key, Handler>, n0: nat, r1: map<Key, Handler>, l1: seq<Call>, r2: map<Key, Handler>,
      l2: seq<Call>)
    requires n0 <= |l1| && l1 <= l2
    requires Accounted(r0, n0, r1, l1) && Accounted(r1, |l1|, r2, l2)
    ensures Accounted(r0, n0, r2, l2)
  {
  }

  lemma NodesTrans(a: Snap, b: Snap, c: Snap)
    requires a.removed <= b.removed <= c.removed && NodesKept(a, b) && NodesKept(b, c)
    ensures NodesKept(a, c)
  {
  }

  lemma StepsTrans(a: Snap, b: Snap, c: Snap)
    requires Steps(a, b) && Steps(b, c)
    ensures Steps(a, c)
  {
    hide Accounted, NodesKept, HasPoll, Served, DelaysGrow, Tracks;
    TracksTrans(a, b, c);
    DelaysGrowTrans(a, b, c);
    AccountedTrans(a.io.regs, |a.log|, b.io.regs, b.log, c.io.regs, c.log);
    NodesTrans(a, b, c);
    assert a.removed <= c.removed;
  }

  // ---------- the steps ----------

  lemma LogPush(log: seq<Call>, c: Call)
    requires LogOk(log) && CallOk(c)
    ensures LogOk(log + [c])
  {
  }

  /** Time passes. */
  lemma TickOk(s: Snap, t: int)
    requires Ok(s) && s.now <= t
    ensures Ok(s.(now := t)) && Steps(s, s.(now := t)) && Work(s.(now := t)) == Work(s)
  {
  }

  function Posted(s: Snap, h: Handler): Snap { s.(sync := s.sync + [h], posts := s.posts + [h]) }

  lemma Unchanged(s: Snap)
    ensures NodesKept(s, s) && Accounted(s.io.regs, |s.log|, s.io.regs, s.log) && PollsKept(s.io.polls, s.io.polls)
  {
  }

  lemma PostedOk(s: Snap, h: Handler)
    requires Ok(s)
    ensures Ok(Posted(s, h)) && Steps(s, Posted(s, h))
  {
    hide IoInv, HasPoll, NoIdle, DelaysOk, TimersDue, LogOk, RanPosts, RanDelays, RanEvents, Accounted, PollsKept,
      HeapOrdered;
    Unchanged(s);
    assert Posted(s, h).sync[s.running..] == s.sync[s.running..] + [h];
  }

  lemma PostedWork(s: Snap, h: Handler)
    requires Ok(s)
    ensures Work(Posted(s, h)) == Work(s) + Weight(h)
  {
    hide Sum, Weight, IoInv, DelaysOk, TimersDue, LogOk, NoIdle;
    var q := s.sync[s.running..];
    assert Posted(s, h).sync[s.running..] == q + [h];
    assert multiset(q + [h]) == multiset(q) + multiset{h};
    SumAdd(multiset(q), h, Weight);
  }

  lemma BagAdd<T>(taken: multiset<T>, held: multiset<T>, ran: multiset<T>, b: multiset<T>, x: T)
    requires held <= b && taken + held == ran + b
    ensures held <= b + multiset{x} && (taken + multiset{x}) + held == ran + (b + multiset{x})
  {
    assert (taken + multiset{x}) + held == (taken + held) + multiset{x};
    assert ran + (b + multiset{x}) == (ran + b) + multiset{x};
  }

  function Entered(s: Snap, e: Entry<Delayed>): Snap {
    s.(delays := Push(s.delays, e), taken := s.taken + multiset{e})
  }

  lemma EnteredDelays(delays: seq<Entry<Delayed>>, e: Entry<Delayed>, now: int)
    requires DelaysOk(delays, now) && now >= 0 && e.item.ms >= 0 && e.deadline == now + e.item.ms
    ensures DelaysOk(Push(delays, e), now) && multiset(Push(delays, e)) == multiset(delays) + multiset{e}
    ensures delays != [] && delays[0].deadline <= now ==> Push(delays, e) != [] && Push(delays, e)[0] == delays[0]
  {
    var s := Push(delays, e);
    PushCorrect(delays, e);
    forall x | x in s
      ensures x.deadline >= 0 && x.item.ms >= 0 && x.deadline <= now + x.item.ms
    {
      assert x in multiset(s);
    }
  }

  lemma DelaysHeap(s: Snap)
    requires Ok(s)
    ensures HeapOrdered(s.delays)
  {
  }

  lemma EnteredOk(s: Snap, e: Entry<Delayed>)
    requires Ok(s) && e.item.ms >= 0 && e.deadline == s.now + e.item.ms
    ensures Ok(Entered(s, e)) && Steps(s, Entered(s, e))
  {
    hide IoInv, HasPoll, NoIdle, DelaysOk, TimersDue, LogOk, RanPosts, RanDelays, RanEvents, Accounted, PollsKept,
      Push, NodesKept;
    Unchanged(s);
    NodesSame(s, Entered(s, e));
    EnteredDelays(s.delays, e, s.now);
    BagAdd(s.taken, s.heldDelays, RanDelays(s.log), multiset(s.delays), e);
    assert TopKept(s, Entered(s, e));
    assert Steps(s, Entered(s, e));
  }

  lemma NodesSame(s: Snap, s': Snap)
    requires |s.removed| <= |s'.removed| && s'.shape == s.shape
    ensures NodesKept(s, s')
  {
  }

  lemma EnteredWork(s: Snap, e: Entry<Delayed>)
    requires s.running <= |s.sync| && s.heldDelays <= multiset(s.delays)
    requires multiset(Push(s.delays, e)) == multiset(s.delays) + multiset{e}
    ensures Work(Entered(s, e)) == Work(s) + Weight(e.item.hnd)
  {
    hide Sum, Push;
    var b := multiset(s.delays);
    assert b + multiset{e} - s.heldDelays == b - s.heldDelays + multiset{e};
    SumAdd(b - s.heldDelays, e, DelayWeight);
  }

  /** `w` is the tree afterwards. */
  function Registered(s: Snap, k: Key, h: Handler, w: RbShape.Shape): Snap {
    s.(io := Enqueue(s.io, k, h), regd := s.regd + multiset{(k, h)}, shape := w)
  }

  /** Only a descriptor without poll entry changes the tree, and no node is lost. */
  ghost predicate TreeGrows(s: Snap, fd: int, w: RbShape.Shape) {
    Registry.KeepsNodes(s.shape, w, None) && (HasPoll(s.io.polls, fd) ==> w == s.shape)
  }

  lemma ItemsAdd(regs: map<Key, Handler>, k: Key, h: Handler)
    requires k !in regs
    ensures multiset(regs[k := h].Items) == multiset(regs.Items) + multiset{(k, h)}
  {
    var regs' := regs[k := h];
    ItemsRemove(regs', k);
    assert regs' - {k} == regs && regs'[k] == h;
  }

  lemma ItemsRemove(regs: map<Key, Handler>, k: Key)
    requires k in regs
    ensures (k, regs[k]) in regs.Items
    ensures multiset((regs - {k}).Items) == multiset(regs.Items) - multiset{(k, regs[k])}
  {
    var regs' := regs - {k};
    assert forall p: (Key, Handler) :: p in regs'.Items <==> p in regs.Items && p != (k, regs[k]);
    assert regs'.Items == regs.Items - {(k, regs[k])};
  }

  lemma EnqueuedPolls(io: IoState, k: Key, h: Handler, open: set<int>)
    requires NoIdle(io.polls, open)
    ensures NoIdle(Enqueue(io, k, h).polls, open) && PollsKept(io.polls, Enqueue(io, k, h).polls)
  {
  }

  lemma RegisteredOk(s: Snap, k: Key, h: Handler, w: RbShape.Shape)
    requires Ok(s) && k !in s.io.regs && TreeGrows(s, k.fd, w)
    ensures Ok(Registered(s, k, h, w)) && Steps(s, Registered(s, k, h, w))
    ensures FindTimer(s.io.timed, k) == |s.io.timed|
  {
    hide IoInv, HasPoll, FindPoll, FindTimer, NoIdle, PollsKept, DelaysOk, LogOk, RanPosts, RanDelays, RanEvents,
      Accounted,
      Enqueue;
    OperationsKeepInv(s.io, k, h);
    ItemsAdd(s.io.regs, k, h);
    EnqueuedPolls(s.io, k, h, s.open);
    EnqueuedLength(s.io, k, h);
    EnqueuedRest(s.io, k, h, s.log);
    assert NodesKept(s, Registered(s, k, h, w));
    BagAdd(s.regd, s.heldEvents, RanEvents(s.log), multiset(s.io.regs.Items), (k, h));
    assert Steps(s, Registered(s, k, h, w));
  }

  lemma EnqueuedLength(io: IoState, k: Key, h: Handler)
    ensures |Enqueue(io, k, h).polls| == |io.polls| <==> HasPoll(io.polls, k.fd)
  {
  }

  lemma EnqueuedRest(io: IoState, k: Key, h: Handler, log: seq<Call>)
    requires k !in io.regs
    ensures Enqueue(io, k, h).regs == io.regs[k := h] && Enqueue(io, k, h).timed == io.timed
    ensures Accounted(io.regs, |log|, io.regs[k := h], log)
  {
  }

  lemma RegisteredWork(s: Snap, k: Key, h: Handler, w: RbShape.Shape)
    requires s.running <= |s.sync| && s.heldEvents <= multiset(s.io.regs.Items) && k !in s.io.regs
    ensures Work(Registered(s, k, h, w)) == Work(s) + Weight(h)
  {
    hide Sum, FindPoll;
    ItemsAdd(s.io.regs, k, h);
    var b := multiset(s.io.regs.Items);
    assert b + multiset{(k, h)} - s.heldEvents == b - s.heldEvents + multiset{(k, h)};
    SumAdd(b - s.heldEvents, (k, h), RegWeight);
  }

  function WithTimer(s: Snap, k: Key, since: int, ms: int): Snap { s.(io := AddTimer(s.io, k, since, ms)) }

  lemma WithTimerOk(s: Snap, k: Key, since: int, ms: int)
    requires Ok(s) && k in s.io.regs && FindTimer(s.io.timed, k) == |s.io.timed|
    requires since + ms >= 0 && since == s.now
    ensures Ok(WithTimer(s, k, since, ms)) && Steps(s, WithTimer(s, k, since, ms))
    ensures Work(WithTimer(s, k, since, ms)) == Work(s)
  {
    hide Sum, TimedOk, HasPoll, FindPoll, FindTimer, Push, PollsOk, DelaysOk, LogOk, RanPosts, RanDelays, RanEvents,
      NoIdle,
      PollsKept, Accounted, NodesKept, TimersDue;
    AddTimerKeeps(s.io, k, since, ms);
    AddedTimerDue(s.io, k, since, ms, s.now);
    Unchanged(s);
    NodesSame(s, WithTimer(s, k, since, ms));
  }

  lemma AddedTimerDue(io: IoState, k: Key, since: int, ms: int, now: int)
    requires TimedOk(io.timed, io.regs) && k in io.regs && FindTimer(io.timed, k) == |io.timed|
    requires TimersDue(io.timed, now) && since + ms >= 0 && since == now
    ensures TimersDue(AddTimer(io, k, since, ms).timed, now)
  {
    AddTimerKeeps(io, k, since, ms);
    forall x | x in AddTimer(io, k, since, ms).timed
      ensures x.deadline == x.item.since + x.item.ms && x.item.since <= now
    {
      assert x in multiset(AddTimer(io, k, since, ms).timed);
    }
  }

  /** The event's timer, if it has one. */
  function TimerFor(io: IoState, k: Key): Option<Entry<Timer>> {
    var j := FindTimer(io.timed, k);
    if j < |io.timed| then Some(io.timed[j]) else None
  }

  /** iosvc_dequeue, and the invocation that follows. */
  function Fired(s: Snap, k: Key, c: Call): Snap
    requires HasPoll(s.io.polls, k.fd)
  {
    s.(io := Dequeue(s.io, k), log := s.log + [c])
  }

  lemma DequeuedPolls(io: IoState, k: Key, open: set<int>)
    requires HasPoll(io.polls, k.fd) && NoIdle(io.polls, open) && k.fd in open
    ensures NoIdle(Dequeue(io, k).polls, open) && PollsKept(io.polls, Dequeue(io, k).polls)
  {
  }

  lemma DequeuedTimers(io: IoState, k: Key, now: int)
    requires IoInv(io) && TimersDue(io.timed, now) && HasPoll(io.polls, k.fd)
    ensures TimersDue(Dequeue(io, k).timed, now)
  {
    DropTimerKeeps(io.timed, io.regs, k);
    forall x | x in Dequeue(io, k).timed
      ensures x.deadline == x.item.since + x.item.ms && x.item.since <= now
    {
      assert x in multiset(Dequeue(io, k).timed) && x in io.timed;
    }
  }

  lemma FiredAccounted(regs: map<Key, Handler>, k: Key, log: seq<Call>, c: Call)
    requires k in regs && c.RunEvent? && c.key == k && c.hnd == regs[k]
    ensures Served(log + [c], |log|, k, regs[k]) && Accounted(regs, |log|, regs - {k}, log + [c])
  {
    assert (log + [c])[|log|] == c;
  }

  lemma FiredOk(s: Snap, k: Key, c: Call)
    requires Ok(s) && k in s.io.regs && k.fd in s.open && s.heldEvents == multiset{}
    requires c.RunEvent? && c.key == k && c.hnd == s.io.regs[k] && CallOk(c)
    ensures HasPoll(s.io.polls, k.fd) && Ok(Fired(s, k, c))
  {
    hide IoInv, HasPoll, FindPoll, NoIdle, DropTimer, DelaysOk, TimersDue, LogOk, RanPosts, RanDelays, RanEvents,
      CallOk;
    OperationsKeepInv(s.io, k, c.hnd);
    ItemsRemove(s.io.regs, k);
    DequeuedPolls(s.io, k, s.open);
    DequeuedTimers(s.io, k, s.now);
    RanPush(s.log, c);
    LogPush(s.log, c);
  }

  lemma FiredWork(s: Snap, k: Key, c: Call)
    requires s.running <= |s.sync| && k in s.io.regs && s.heldEvents == multiset{}
    requires HasPoll(s.io.polls, k.fd) && c.RunEvent? && c.hnd == s.io.regs[k]
    ensures Work(Fired(s, k, c)) == Work(s) - Weight(c.hnd)
  {
    hide Sum, HasPoll, FindPoll, DropTimer;
    ItemsRemove(s.io.regs, k);
    var b := multiset(s.io.regs.Items);
    SumRemove(b, (k, c.hnd), RegWeight);
    assert multiset((s.io.regs - {k}).Items) - multiset{} == b - multiset{(k, c.hnd)} && b - multiset{} == b;
  }

  lemma FiredSteps(s: Snap, k: Key, c: Call)
    requires Ok(s) && k in s.io.regs && k.fd in s.open
    requires c.RunEvent? && c.key == k && c.hnd == s.io.regs[k] && !Stopped(c)
    ensures HasPoll(s.io.polls, k.fd) && Steps(s, Fired(s, k, c)) && Served(s.log + [c], |s.log|, k, c.hnd)
  {
    hide Sum, HasPoll, FindPoll, FindTimer, NoIdle, DropTimer, Accounted, PollsKept, Served;
    DequeueKeepsPolls(s.io, k);
    DequeuedPolls(s.io, k, s.open);
    FiredAccounted(s.io.regs, k, s.log, c);
  }

  /** ioevt_cleanup_evt; `w` is the tree afterwards. */
  function Cleaned(s: Snap, fd: int, w: RbShape.Shape): Snap
    requires HasPoll(s.io.polls, fd)
  {
    s.(io := Cleanup(s.io, fd), removed := s.removed + [fd], shape := w)
  }

  lemma CleanedIdle(io: IoState, fd: int, open: set<int>)
    requires PollsOk(io.polls, io.regs) && HasPoll(io.polls, fd) && NoIdle(io.polls, open + {fd})
    ensures NoIdle(Cleanup(io, fd).polls, open)
  {
  }

  lemma CleanedOk(s: Snap, fd: int, w: RbShape.Shape, open: set<int>)
    requires Ok(s) && HasPoll(s.io.polls, fd) && EventsOf(s.io.regs, fd) == {} && s.open == open + {fd}
    requires Registry.KeepsNodes(s.shape, w, Some(fd))
    ensures Ok(Cleaned(s, fd, w).(open := open)) && Steps(s, Cleaned(s, fd, w))
      && Work(Cleaned(s, fd, w).(open := open)) == Work(s)
  {
    hide Ok, Steps, Work, HasPoll, EventsOf;
    CleanedValid(s, fd, w, open);
    CleanedSteps(s, fd, w);
    CleanedWork(s, fd, w, open);
  }

  lemma CleanedValid(s: Snap, fd: int, w: RbShape.Shape, open: set<int>)
    requires Ok(s) && HasPoll(s.io.polls, fd) && EventsOf(s.io.regs, fd) == {} && s.open == open + {fd}
    ensures Ok(Cleaned(s, fd, w).(open := open))
  {
    hide HasPoll, FindPoll, EventsOf, NoIdle, TimedOk, PollsOk, DelaysOk, TimersDue, LogOk, RanPosts, RanDelays,
      RanEvents;
    CleanupKeepsPolls(s.io, fd);
    CleanedIdle(s.io, fd, open);
  }

  lemma CleanedSteps(s: Snap, fd: int, w: RbShape.Shape)
    requires Ok(s) && HasPoll(s.io.polls, fd) && EventsOf(s.io.regs, fd) == {}
    requires Registry.KeepsNodes(s.shape, w, Some(fd))
    ensures Steps(s, Cleaned(s, fd, w))
  {
    hide HasPoll, FindPoll, EventsOf, NoIdle, TimedOk, PollsOk, DelaysOk, TimersDue, LogOk, Conserved, Accounted,
      PollsKept, Tracks;
    CleanedTracks(s, fd, w);
    CleanupKeepsPolls(s.io, fd);
    assert (s.removed + [fd])[|s.removed|..] == [fd];
    Unchanged(s);
  }

  /** The entry that goes is that of a descriptor without registrations. */
  lemma CleanedTracks(s: Snap, fd: int, w: RbShape.Shape)
    requires HasPoll(s.io.polls, fd) && EventsOf(s.io.regs, fd) == {}
    ensures Tracks(s, Cleaned(s, fd, w))
  {
    hide EventsOf;
    EventsEmptyIff(s.io.regs, fd);
    var polls, polls', i, n := s.io.polls, Cleaned(s, fd, w).io.polls, FindPoll(s.io.polls, fd), |s.io.polls| - 1;
    forall p | p in polls && p.fd != fd
      ensures p in polls'
    {
      var j :| 0 <= j < |polls| && polls[j] == p;
      assert polls'[if j == n then i else j] == p;
    }
    forall p | p in polls'
      ensures p in polls
    {
    }
  }

  lemma CleanedWork(s: Snap, fd: int, w: RbShape.Shape, open: set<int>)
    requires HasPoll(s.io.polls, fd)
    ensures Work(Cleaned(s, fd, w).(open := open)) == Work(s)
  {
  }

  // ---------- descriptors being served ----------

  lemma Opened(s: Snap, fd: int)
    requires Ok(s)
    ensures Ok(s.(open := s.open + {fd})) && Work(s.(open := s.open + {fd})) == Work(s)
  {
  }

  lemma Closed(s: Snap, fd: int, open: set<int>)
    requires Ok(s) && HasPoll(s.io.polls, fd) && s.open == open + {fd}
      && s.io.polls[FindPoll(s.io.polls, fd)].events != {}
    ensures Ok(s.(open := open)) && Work(s.(open := open)) == Work(s)
  {
    forall i | 0 <= i < |s.io.polls| && s.io.polls[i].events == {}
      ensures s.io.polls[i].fd in open
    {
      FindPollIs(s.io.polls, i);
    }
  }

  /** Steps do not care which descriptors are open. */
  lemma StepsReopen(a: Snap, b: Snap, open: set<int>)
    requires Steps(a, b)
    ensures Steps(a.(open := open), b.(open := open))
  {
  }

  /** A descriptor with an entry in the poll vector has no events exactly when nothing is registered. */
  lemma EventsAt(s: Snap, fd: int)
    requires Ok(s) && HasPoll(s.io.polls, fd)
    ensures s.io.polls[FindPoll(s.io.polls, fd)].events == EventsOf(s.io.regs, fd)
  {
  }

  /** The invocation that iosvc_dequeue prepares. */
  function EventCall(io: IoState, k: Key, code: ErrCode, at: int, revents: Flags, least: bool): Call
    requires k in io.regs
  {
    var timer := TimerFor(io, k);
    var remaining := if timer.None? then None else if code == EioTimeout then Some(0)
                     else Some(RemainingAt(timer.value.deadline, at));
    RunEvent(k, io.regs[k], code, timer, remaining, at, revents, least)
  }

  lemma CancelCall(s: Snap, k: Key)
    requires Ok(s) && k in s.io.regs
    ensures CallOk(EventCall(s.io, k, EioCancelled, 0, {}, false))
  {
    TimerIn(s.io, k);
  }

  lemma TimerIn(io: IoState, k: Key)
    ensures var timer := TimerFor(io, k); timer.Some? ==> timer.value in io.timed && timer.value.item.key == k
  {
  }

  /** A call that can neither change the tree nor leave the hypotheses. */
  predicate Calm(a: Action, walking: bool, polls: seq<PollFd>) {
    !a.Cancel? && (a.Sched? ==> HasPoll(polls, a.fd))
    && (a.SchedTimeout? ==> !walking && a.ms >= 0 && HasPoll(polls, a.fd))
  }

  predicate CalmScript(script: seq<Action>, walking: bool, polls: seq<PollFd>) {
    forall a :: a in script ==> Calm(a, walking, polls)
  }

  /** The event with the least deadline has such a handler. */
  predicate CalmTop(io: IoState, walking: bool) {
    io.timed != [] && io.timed[0].item.key in io.regs
    && CalmScript(io.regs[io.timed[0].item.key].script, walking, io.polls)
  }

  // ---------- answers ----------

  function PostResult(status: Status, hnd: Option<Handler>): ErrCode {
    if status != Running && status != Ready then EioStopped
    else if hnd.None? then EioInvarg
    else EioOk
  }

  function PostDelayResult(status: Status, hnd: Option<Handler>, ms: int): ErrCode {
    if hnd.None? || ms < 0 then EioInvarg
    else if status == Stopping || status == Done then EioStopped
    else EioOk
  }
}
