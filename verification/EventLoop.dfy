/** The event loop and the API that callbacks call back into, over the real structures of class
    Registry.Service (src/io_service.c, src/iosvc_post.c, src/iosvc_sched.c, src/iosvc_cancel.c).  The clock and
    poll() are nondeterministic.  Where the code would damage the node tree, go on with a stale link, call a NULL
    handler or rely on more than poll() promises, the run is marked `tripped` and nothing is claimed about it any
    more. */
module EventLoop {
  import opened IoTypes
  import opened DeadlineHeap
  import opened IoModel
  import opened Weights
  import opened LoopState
  import opened LoopRounds
  import opened LoopDispatch
  import opened LoopCalls
  import opened LoopEffects
  import opened LoopScripts
  import opened LoopTame
  import opened LoopTurns
  import opened LoopRuns
  import EventSlots
  import RbShape
  import RbLinks
  import RbTrees
  import RbExtraction
  import Registry
  import RegistryRep
  import StopWalk
  import CBuffers

  /** The search for `fd` ends at this link. */
  ghost predicate PlaceIs(shape: RbShape.Shape, fd: int, place: RbLinks.Place) {
    place == RbLinks.PlaceOf(RbTrees.ProbeTo(RbShape.Top, shape, fd).0)
  }

  /** The same, with the parent. */
  ghost predicate Leads(shape: RbShape.Shape, fd: int, place: RbLinks.Place, parent: RbShape.Ptr) {
    PlaceIs(shape, fd, place) && parent == RbShape.ParentOf(RbTrees.ProbeTo(RbShape.Top, shape, fd).0)
  }

  class Loop {
    var status: Status
    const buf: CBuffers.CBuffer<Handler>
    const delays: Heap<Delayed>
    const reg: Registry.Service

    // the environment: the last clock reading, the descriptors whose node was removed so far, whether
    // stop_async_ops is holding a pointer into the deadline heap, whether the run left the hypotheses
    var now: int
    var removed: seq<int>
    var walking: bool
    var tripped: bool

    // what `buf` holds, what `reg` represents, and its tree
    ghost var sync: seq<Handler>
    ghost var io: IoState
    ghost var shape: RbShape.Shape

    // the books
    ghost var posts: seq<Handler>
    ghost var taken: multiset<Entry<Delayed>>
    ghost var regd: multiset<(Key, Handler)>
    ghost var log: seq<Call>
    ghost var open: set<int>
    ghost var running: nat
    ghost var heldDelays: multiset<Entry<Delayed>>
    ghost var heldEvents: multiset<(Key, Handler)>
    ghost var wakeups: seq<Wakeup>

    ghost function View(): Snap
      reads this, delays
    {
      Snap(status, sync, delays.elems, io, shape, now, posts, taken, regd, log, removed, open, running, heldDelays,
        heldEvents)
    }

    /** The tree, the slots, the poll vector and the deadline heap are sound and represent `io`, the ring is
        sound and holds `sync`. */
    ghost predicate Linked()
      reads this`io, this`shape, this`sync, reg, reg.tree, buf, buf.data
    {
      reg.Valid() && reg.io == io && reg.shape == shape && buf.Valid() && buf.Contents() == sync
    }

    ghost predicate Active()
      reads this
    {
      !tripped && (status.Running? || status.Stopping?)
    }

    lemma Fields()
      ensures View().status == status && View().now == now && View().io == io && View().log == log
      ensures View().removed == removed && View().sync == sync && View().delays == delays.elems && View().shape == shape
      ensures View().taken == taken && View().heldEvents == heldEvents
      ensures Active() <==> !tripped && (status.Running? || status.Stopping?)
    {
    }

    /** iosvc_create */
    constructor (t: nat)
      ensures Ok(View()) && Linked() && !tripped && !walking && status == Ready
      ensures fresh(delays) && fresh(reg) && fresh(reg.tree) && fresh(buf) && fresh(buf.data)
      ensures open == {} && running == 0 && heldDelays == multiset{} && heldEvents == multiset{}
      ensures sync == [] && delays.elems == [] && io == Idle && log == []
    {
      buf := new CBuffers.CBuffer();
      delays := new Heap();
      reg := new Registry.Service();
      status, sync, now, removed, walking, tripped := Ready, [], t, [], false, false;
      io, shape, posts, taken, regd, log, open := Idle, RbShape.Nil, [], multiset{}, multiset{}, [], {};
      running, heldDelays, heldEvents, wakeups := 0, multiset{}, multiset{}, [];
      new;
      hide Ok, RegistryRep.Represents;
      CreatedOk(View());
    }

    /** current_time: the monotone clock, in milliseconds. */
    method Clock() returns (t: int)
      requires Ok(View())
      modifies this`now
      ensures t == now && old(now) <= now && View() == old(View()).(now := t)
      ensures Ok(View()) && Steps(old(View()), View()) && Work(View()) == old(Work(View()))
    {
      t :| now <= t;
      TickOk(View(), t);
      now := t;
    }

    // ---------- the API ----------

    /** iosvc_post */
    method Post(hnd: Option<Handler>) returns (err: ErrCode)
      requires Ok(View()) && Linked()
      modifies this`sync, this`posts, buf, buf.data
      ensures buf.data == old(buf.data) || fresh(buf.data)
      ensures err == PostResult(status, hnd)
      ensures err == EioOk <==> (status.Ready? || status.Running?) && hnd.Some?
      ensures err == EioStopped <==> status.Stopping? || status.Done?
      ensures err != EioOk && err != EioStopped ==> err == EioInvarg
      ensures View() == if err == EioOk then Posted(old(View()), hnd.value) else old(View())
      ensures Ok(View()) && Linked()
    {
      hide Ok, RegistryRep.Represents;
      if status != Running && status != Ready {
        return EioStopped;
      }
      if hnd.None? {
        return EioInvarg;
      }
      PostedOk(View(), hnd.value);
      buf.Push(hnd.value);
      sync := sync + [hnd.value];
      posts := posts + [hnd.value];
      return EioOk;
    }

    /** iosvc_post_delay */
    method PostDelay(hnd: Option<Handler>, ms: int) returns (err: ErrCode)
      requires Ok(View())
      modifies this`now, this`taken, delays
      ensures err == PostDelayResult(status, hnd, ms) && old(now) <= now
      ensures err == EioInvarg <==> hnd.None? || ms < 0
      ensures err == EioOk <==> (status.Ready? || status.Running?) && hnd.Some? && ms >= 0
      ensures err != EioInvarg && err != EioOk ==> err == EioStopped
      ensures
        var s := old(View()).(now := now);
        View() == if err == EioOk then Entered(s, Entry(now + ms, Delayed(hnd.value, ms))) else s
      ensures Ok(View())
    {
      hide Ok, Steps, Work, HeapOrdered, Push;
      var t := Clock();
      var deadline := t + ms;
      if hnd.None? || ms < 0 {
        return EioInvarg;
      }
      if status == Stopping || status == Done {
        return EioStopped;
      }
      var e := Entry(deadline, Delayed(hnd.value, ms));
      EnteredOk(View(), e);
      DelaysHeap(View());
      delays.Add(e);
      taken := taken + multiset{e};
      return EioOk;
    }

    /** iosvc_sched.  Leaves the hypotheses exactly if a new node would start its fix-up with a mixed rotation. */
    method Sched(fd: int, wt: Option<WaitType>, hnd: Option<Handler>) returns (err: ErrCode)
      requires !tripped && Ok(View()) && Linked()
      modifies this`io, this`shape, this`regd, this`tripped, reg, reg.tree
      ensures err == EnqueueResult(status, old(io).regs, fd, wt, hnd)
      ensures
        var open := status.Ready? || status.Running?;
        && (err == EioOk <==> open && hnd.Some? && wt.Some? && Key(fd, wt.value) !in old(io).regs)
        && (err == EioInprogress <==> open && hnd.Some? && wt.Some? && Key(fd, wt.value) in old(io).regs)
        && (err == EioInvarg <==> open && (hnd.None? || wt.None?))
        && (err == EioStopped <==> status.Stopping? || status.Done?)
      ensures tripped <==> err == EioOk && !Registry.InsertHarmless(old(shape), fd)
      ensures !tripped ==>
        View() == if err == EioOk then Registered(old(View()), Key(fd, wt.value), hnd.value, shape) else old(View())
      ensures !tripped ==> Ok(View()) && Linked() && TreeGrows(old(View()), fd, shape)
      ensures HasPoll(old(io).polls, fd) ==> !tripped
      ensures err != EioOk ==> reg.tree.mem == old(reg.tree.mem)
    {
      hide Ok, Enqueue, Linked, Registry.InsertHarmless, Registry.KeepsNodes, HasPoll, FindPoll, TreeGrows,
        EnqueueResult;
      ghost var s := View();
      ResultMeans(status, io.regs, fd, wt, hnd);
      var mixes;
      err, mixes := Check(fd, wt, hnd);
      if err != EioOk {
        Refused(s, fd);
        return;
      }
      ResultOk(status, io.regs, fd, wt, hnd);
      if mixes {
        tripped := true;
        return;
      }
      EnqueueEvent(fd, wt.value, hnd.value);
      Accepted(s, Key(fd, wt.value), hnd.value, shape);
      regd := regd + multiset{(Key(fd, wt.value), hnd.value)};
    }

    /** What iosvc_enqueue will answer, and whether it would damage the tree. */
    method Check(fd: int, wt: Option<WaitType>, hnd: Option<Handler>) returns (err: ErrCode, mixes: bool)
      requires Linked()
      ensures err == EnqueueResult(status, io.regs, fd, wt, hnd) && (mixes <==> !Registry.InsertHarmless(shape, fd))
      ensures HasPoll(io.polls, fd) ==> !mixes
    {
      hide RegistryRep.Represents, Registry.InsertHarmless, HasPoll;
      HarmlessIfPolled(fd);
      err := reg.Answer(status, fd, wt, hnd);
      mixes := reg.Mixes(fd);
    }

    /** iosvc_enqueue, when it is going to be accepted. */
    method EnqueueEvent(fd: int, wt: WaitType, hnd: Handler)
      requires Linked() && EnqueueResult(status, io.regs, fd, Some(wt), Some(hnd)) == EioOk
        && Registry.InsertHarmless(shape, fd)
      modifies this`io, this`shape, reg, reg.tree
      ensures Linked() && io == Enqueue(old(io), Key(fd, wt), hnd)
      ensures Registry.KeepsNodes(old(shape), shape, None) && (HasPoll(old(io).polls, fd) ==> shape == old(shape))
    {
      hide RegistryRep.Represents, Registry.InsertHarmless, Registry.KeepsNodes, Registry.ShapeWith, HasPoll, Enqueue;
      var p := reg.Allocate();
      var junk: EventSlots.EventData := *;
      var err, node := reg.Enqueue(status, fd, Some(wt), Some(hnd), p, junk);
      io, shape := reg.io, reg.shape;
    }

    /** The body of iosvc_sched_timeout, when it is going to be accepted; `t` is its clock reading. */
    method EnqueueTimed(fd: int, wt: WaitType, hnd: Handler, ms: int, t: int)
      requires Linked() && EnqueueResult(status, io.regs, fd, Some(wt), Some(hnd)) == EioOk
        && Registry.InsertHarmless(shape, fd)
      requires t + ms >= 0
      modifies this`io, this`shape, reg, reg.tree
      ensures Linked() && io == AddTimer(Enqueue(old(io), Key(fd, wt), hnd), Key(fd, wt), t, ms)
      ensures Registry.KeepsNodes(old(shape), shape, None) && (HasPoll(old(io).polls, fd) ==> shape == old(shape))
    {
      hide RegistryRep.Represents, Registry.InsertHarmless, Registry.KeepsNodes, Registry.ShapeWith, HasPoll, Enqueue,
        AddTimer;
      var p := reg.Allocate();
      var junk: EventSlots.EventData := *;
      var err := reg.SchedTimeout(status, fd, Some(wt), Some(hnd), ms, t, p, junk);
      io, shape := reg.io, reg.shape;
    }

    /** A descriptor that has a node needs no insertion. */
    lemma HarmlessIfPolled(fd: int)
      requires Linked()
      ensures HasPoll(io.polls, fd) ==> Registry.InsertHarmless(shape, fd)
    {
      reg.Found(fd);
    }

    /** iosvc_sched_timeout.  Leaves the hypotheses as iosvc_sched does, with a negative deadline, and when it
        may move the array that stop_async_ops is walking over (the array grows before the status is checked). */
    method SchedTimeout(fd: int, wt: Option<WaitType>, hnd: Option<Handler>, ms: int) returns (err: ErrCode)
      requires !tripped && Ok(View()) && Linked()
      modifies this`now, this`io, this`shape, this`regd, this`tripped, reg, reg.tree
      ensures err == EnqueueResult(status, old(io).regs, fd, wt, hnd) && now >= 0
      ensures
        var open := status.Ready? || status.Running?;
        && (err == EioOk <==> open && hnd.Some? && wt.Some? && Key(fd, wt.value) !in old(io).regs)
        && (err == EioInprogress <==> open && hnd.Some? && wt.Some? && Key(fd, wt.value) in old(io).regs)
        && (err == EioInvarg <==> open && (hnd.None? || wt.None?))
        && (err == EioStopped <==> status.Stopping? || status.Done?)
      ensures tripped <==> walking || (err == EioOk && (now + ms < 0 || !Registry.InsertHarmless(old(shape), fd)))
      ensures !tripped ==>
        old(now) <= now && TreeGrows(old(View()), fd, shape)
        && View() == if err == EioOk then Timed(old(View()), now, Key(fd, wt.value), hnd.value, ms, shape)
                     else old(View()).(now := now)
      ensures !tripped ==> Ok(View()) && Linked()
      ensures HasPoll(old(io).polls, fd) && !walking && ms >= 0 ==> !tripped
      ensures err != EioOk ==> View() == old(View()).(now := now) && reg.tree.mem == old(reg.tree.mem)
    {
      hide Ok, Steps, Work, Enqueue, AddTimer, Linked, Registry.InsertHarmless, HasPoll, FindPoll, Registry.KeepsNodes,
        EnqueueResult, TreeGrows, Timed;
      ghost var s := View();
      var t := Clock();
      ClockPositive(View());
      ResultMeans(status, io.regs, fd, wt, hnd);
      var mixes;
      err, mixes := Check(fd, wt, hnd);
      if err != EioOk {
        tripped := walking;
        Refused(s, fd);
        return;
      }
      ResultOk(status, io.regs, fd, wt, hnd);
      if walking || mixes || t + ms < 0 {
        tripped := true;
        return;
      }
      AcceptTimed(fd, wt.value, hnd.value, ms, t, s);
    }

    /** The books for an accepted registration with a timer; `s` is the state before the clock was read. */
    method AcceptTimed(fd: int, wt: WaitType, hnd: Handler, ms: int, t: int, ghost s: Snap)
      requires Ok(s) && Linked() && View() == s.(now := t) && s.now <= t && t + ms >= 0
      requires EnqueueResult(status, io.regs, fd, Some(wt), Some(hnd)) == EioOk && Registry.InsertHarmless(shape, fd)
      modifies this`io, this`shape, this`regd, reg, reg.tree
      ensures View() == Timed(s, t, Key(fd, wt), hnd, ms, shape) && TreeGrows(s, fd, shape) && Ok(View()) && Linked()
    {
      hide Ok, Enqueue, AddTimer, Linked, Registry.InsertHarmless, HasPoll, Registry.KeepsNodes, TreeGrows, Timed;
      EnqueueTimed(fd, wt, hnd, ms, t);
      AcceptedTimed(s, t, Key(fd, wt), hnd, ms, shape);
      TimedIs(s, t, Key(fd, wt), hnd, ms, shape);
      regd := regd + multiset{(Key(fd, wt), hnd)};
    }

    /** iosvc_stop */
    method Stop() returns (err: ErrCode)
      requires Ok(View())
      modifies this`status
      ensures View() == old(View()).(status := if old(status).Running? then Stopping else old(status)) && Ok(View())
      ensures err == match old(status) { case Running => EioOk case Stopping => EioInprogress case _ => EioNoentry }
    {
      match status
      case Running =>
        status := Stopping;
        return EioOk;
      case Stopping =>
        return EioInprogress;
      case _ =>
        return EioNoentry;
    }

    /** iosvc_reset */
    method Reset() returns (err: ErrCode)
      requires Ok(View())
      modifies this`status
      ensures View() == old(View()).(status := if err == EioOk then Ready else old(status)) && Ok(View())
      ensures err == if old(status).Running? || old(status).Stopping? then EioInprogress else EioOk
    {
      match status
      case Running | Stopping =>
        return EioInprogress;
      case _ =>
        status := Ready;
        return EioOk;
    }

    // ---------- callbacks ----------

    /** iosvc_dequeue for the event of type `wt` of the node `x`, and the call of its handler. */
    method Fire(x: RbShape.Ptr, wt: WaitType, at: int, code: ErrCode, ghost k: Key, ghost revents: Flags,
        ghost least: bool)
      requires Active() && Ok(View()) && Linked() && heldEvents == multiset{}
      requires x in reg.tree.mem && k == Key(reg.tree.mem[x].fd, wt)
        && EventSlots.Pending(reg.tree.mem[x].slots, wt).Some?
      requires k in io.regs && k.fd in open && CallOk(EventCall(io, k, code, at, revents, least)) && code != EioStopped
      modifies this, delays, reg, reg.tree, buf, buf.data
      ensures buf.data == old(buf.data) || fresh(buf.data)
      ensures wakeups == old(wakeups)
      ensures !tripped ==> Ok(View()) && Linked() && walking == old(walking)
      ensures !tripped ==> Invoked(old(View()), View(), k, EventCall(old(io), k, code, at, revents, least))
      ensures !tripped ==> Work(View()) < old(Work(View()))
      ensures !tripped ==>
        && HasPoll(old(io).polls, k.fd)
        && var c := EventCall(old(io), k, code, at, revents, least);
        Performs(Fired(old(View()), k, c), View(), old(io).regs[k].script)
      ensures CalmScript(old(io).regs[k].script, old(walking), old(io).polls) ==>
        !tripped && Smooth(old(View()), View(), k.fd, {k.wt})
      decreases Work(View()), 0
    {
      hide Ok, Steps, CallOk, Dequeue, Work, EventCall, CalmScript, HasPoll, OnlyCancels, Ran, Invoked, Smooth, Linked,
        Performs;
      ghost var s := View();
      ghost var c := EventCall(io, k, code, at, revents, least);
      FireFacts(s, k, c, code, at, revents, least);
      var hnd := Take(x, wt, at, code, k, revents, least);
      RunScript(hnd.script);
      if !tripped {
        InvokedBy(s, k, c, View());
        if CalmScript(hnd.script, walking, s.io.polls) {
          CalledSmooth(s, k, c, View(), walking);
        }
      }
    }

    /** The event is taken out of all structures, and its status and remaining time are set. */
    method Take(x: RbShape.Ptr, wt: WaitType, at: int, code: ErrCode, ghost k: Key, ghost revents: Flags,
        ghost least: bool)
        returns (hnd: Handler)
      requires Linked() && HasPoll(io.polls, k.fd)
      requires x in reg.tree.mem && k == Key(reg.tree.mem[x].fd, wt)
        && EventSlots.Pending(reg.tree.mem[x].slots, wt).Some?
      modifies this`io, this`log, reg, reg.tree
      ensures Linked() && k in old(io).regs && hnd == old(io).regs[k]
      ensures View() == Fired(old(View()), k, EventCall(old(io), k, code, at, revents, least))
    {
      hide Dequeue, RegistryRep.Represents, EventCall, HasPoll;
      ghost var s := View();
      var remaining;
      hnd, remaining := reg.Dequeue(x, wt, at);
      if code == EioTimeout && remaining.Some? {
        remaining := Some(0);
      }
      CallBuilt(io, k, code, at, revents, least, Registry.RemainingOf(io, k, at));
      io := reg.io;
      log := log + [RunEvent(k, hnd, code, TimerFor(s.io, k), remaining, at, revents, least)];
    }

    /** After the callbacks: remove the node and the poll entry if nothing is left on them. */
    method Finish(place: RbLinks.Place, parent: RbShape.Ptr, fd: int, ghost open0: set<int>)
      requires !tripped && Ok(View()) && Linked() && HasPoll(io.polls, fd) && open == open0 + {fd}
      requires Leads(shape, fd, place, parent)
      modifies this`io, this`shape, this`removed, this`open, this`tripped, reg, reg.tree
      ensures tripped <==> EventsOf(old(io).regs, fd) == {} && LosesAt(old(shape), fd)
      ensures tripped ==> View() == old(View()) && StuckAt(io, shape, fd)
      ensures !tripped ==> Ok(View()) && Linked() && Work(View()) == old(Work(View())) && open == open0
      ensures !tripped ==> Steps(old(View()), View().(open := old(open)))
      ensures !tripped ==>
        View() == if EventsOf(old(io).regs, fd) == {} then Cleaned(old(View()), fd, shape).(open := open0)
                  else old(View()).(open := open0)
      ensures !tripped && EventsOf(old(io).regs, fd) == {} ==> Registry.KeepsNodes(old(shape), shape, Some(fd))
    {
      hide Ok, Work, Steps, Cleanup, FindPoll, EventsOf, Linked, Registry.KeepsNodes, Leads, LosesAt;
      ghost var s := View();
      EventsAt(s, fd);
      LeadsPlace(fd, place, parent);
      var idle := IdleAt(place, fd);
      if idle {
        var lost := CleanUp(place, parent, fd);
        if lost {
          tripped := true;
          return;
        }
        CleanedOk(s, fd, shape, open0);
        removed := removed + [fd];
      } else {
        Closed(s, fd, open0);
        StepsRefl(s);
      }
      open := open0;
    }

    lemma LeadsPlace(fd: int, place: RbLinks.Place, parent: RbShape.Ptr)
      requires Leads(shape, fd, place, parent)
      ensures PlaceIs(shape, fd, place)
    {
    }

    /** Whether nothing is left on the node that the link leads to. */
    method IdleAt(place: RbLinks.Place, ghost fd: int) returns (idle: bool)
      requires Linked() && HasPoll(io.polls, fd) && PlaceIs(shape, fd, place)
      ensures idle <==> io.polls[FindPoll(io.polls, fd)].events == {}
    {
      hide RegistryRep.Represents, FindPoll;
      reg.Found(fd);
      var x := reg.tree.Load(place);
      idle := reg.pollfds[reg.tree.mem[x].pollIdx].events == {};
    }

    /** ioevt_cleanup_evt, unless that would lose the parent of the node's place. */
    method CleanUp(place: RbLinks.Place, parent: RbShape.Ptr, ghost fd: int) returns (lost: bool)
      requires Linked() && HasPoll(io.polls, fd) && Leads(shape, fd, place, parent)
      requires io.polls[FindPoll(io.polls, fd)].events == {}
      modifies this`io, this`shape, reg, reg.tree
      ensures lost <==> LosesAt(old(shape), fd)
      ensures lost ==> io == old(io) && shape == old(shape)
      ensures !lost ==> Linked() && io == Cleanup(old(io), fd) && Registry.KeepsNodes(old(shape), shape, Some(fd))
    {
      hide RegistryRep.Represents, FindPoll, Registry.KeepsNodes, Cleanup, RbExtraction.LosesParent,
        RbExtraction.Extracted;
      reg.Found(fd);
      ghost var (c, t) := RbTrees.ProbeTo(RbShape.Top, shape, fd);
      var x := reg.tree.Load(place);
      lost := reg.Loses(x, c, t);
      if !lost {
        reg.CleanupEvt(place, parent, c, t);
        io, shape := reg.io, reg.shape;
      }
    }

    /** iosvc_cancel.  It uses the link captured before the callback, so the callback must not have
        changed the shape of the tree. */
    method Cancel(fd: int, wt: WaitType) returns (err: ErrCode)
      requires !tripped && Ok(View()) && Linked() && (status.Running? ==> heldEvents == multiset{})
      modifies this, delays, reg, reg.tree, buf, buf.data
      ensures buf.data == old(buf.data) || fresh(buf.data)
      ensures !tripped ==> Ok(View()) && Linked() && Steps(old(View()), View()) && Quiet(old(View()), View())
      ensures wakeups == old(wakeups)
      ensures !tripped ==> walking == old(walking)
      ensures !tripped ==> Work(View()) <= old(Work(View())) && OnlyCancels(log, |old(log)|, [Action.Cancel(fd, wt)])
      ensures
        err == if !old(status).Running? then EioInvarg else if Key(fd, wt) !in old(io).regs then EioNoentry else EioOk
      ensures err == EioOk && !tripped ==>
        |log| > |old(log)| && log[|old(log)|] == EventCall(old(io), Key(fd, wt), EioCancelled, 0, {}, false)
      ensures err != EioOk ==> View() == old(View()) && !tripped && reg.tree.mem == old(reg.tree.mem)
      ensures !tripped ==> Effects(old(View()), View(), [])
      ensures err == EioOk && CalmScript(old(io).regs[Key(fd, wt)].script, old(walking), old(io).polls) && tripped ==>
        shape == old(shape) && StuckAt(io, shape, fd)
      decreases Work(View()), 2
    {
      hide Ok, Steps, EventCall, FindPoll, HasPoll, Work, RegistryRep.Represents, Effects;
      StepsRefl(View());
      EffectsRefl(View());
      if status != Running {
        return EioInvarg;
      }
      ghost var k := Key(fd, wt);
      RegsPolled(View(), k);
      reg.Found(fd);
      var place, parent := reg.Find(fd);
      var x := reg.tree.Load(place);
      if x == RbShape.NULL {
        return EioNoentry;
      }
      var slots := reg.tree.mem[x].slots;
      var slot := EventSlots.GetSlot(slots, wt);
      if slot.None? || EventSlots.Load(slots, slot.value).callback.None? {
        return EioNoentry;
      }
      CancelRegistered(place, parent, x, fd, wt);
      return EioOk;
    }

    /** Lines 23-27. */
    method CancelRegistered(place: RbLinks.Place, parent: RbShape.Ptr, x: RbShape.Ptr, fd: int, wt: WaitType)
      requires Active() && Ok(View()) && Linked() && status.Running? && heldEvents == multiset{}
      requires Leads(shape, fd, place, parent) && Key(fd, wt) in io.regs && HasPoll(io.polls, fd)
      requires x in reg.tree.mem && reg.tree.mem[x].fd == fd && EventSlots.Pending(reg.tree.mem[x].slots, wt).Some?
      modifies this, delays, reg, reg.tree, buf, buf.data
      ensures buf.data == old(buf.data) || fresh(buf.data)
      ensures wakeups == old(wakeups)
      ensures !tripped ==> Ok(View()) && Linked() && walking == old(walking)
      ensures !tripped ==> CancelDone(old(View()), View(), Key(fd, wt)) && Work(View()) <= old(Work(View()))
      ensures CalmScript(old(io).regs[Key(fd, wt)].script, old(walking), old(io).polls) && tripped ==>
        shape == old(shape) && StuckAt(io, shape, fd)
      decreases Work(View()), 1
    {
      hide Ok, Steps, CallOk, EventCall, Work, CalmScript, Following, Linked, Leads, EventSlots.Pending, Called, Smooth,
        StuckAt, CancelDone, HasPoll, Invoked, Performs, Fired;
      ghost var s, k := View(), Key(fd, wt);
      PollsAre();
      var n, r := |reg.pollfds|, |removed|;
      CancelCall(s, k);
      Opened(s, fd);
      open := open + {fd};
      ghost var s1 := View();
      Fire(x, wt, 0, EioCancelled, k, {}, false);
      if !tripped {
        CloseCancelled(place, parent, fd, n, r, s, s1, k);
      }
    }

    /** Lines 28-32: the captured link is used, so the tree must be the same. */
    method CloseCancelled(place: RbLinks.Place, parent: RbShape.Ptr, fd: int, n: nat, r: nat, ghost s: Snap,
        ghost s1: Snap, ghost k: Key)
      requires !tripped && Ok(View()) && Linked() && k in s.io.regs && k.fd == fd && HasPoll(s.io.polls, fd)
      requires s1 == s.(open := s.open + {fd}) && n == |s.io.polls| && r == |s.removed|
        && Leads(s.shape, fd, place, parent)
      requires Invoked(s1, View(), k, EventCall(s.io, k, EioCancelled, 0, {}, false)) && Ok(s) && Ok(s1)
      modifies this`io, this`shape, this`removed, this`open, this`tripped, reg, reg.tree
      ensures !tripped ==> Ok(View()) && Linked() && CancelDone(s, View(), k) && Work(View()) == old(Work(View()))
      ensures Smooth(s1, old(View()), fd, {k.wt}) && tripped ==> shape == s.shape && StuckAt(io, shape, fd)
    {
      hide Ok, Steps, Work, Linked, Leads, Smooth, StuckAt, CancelDone, Invoked, EventCall, HasPoll, FindPoll,
        EventsOf, Cleaned, Reports, RbShape.InOrder;
      ghost var s2 := View();
      PollsAre();
      CancelledCall(s.io, k);
      CancelledTree(s1, s2, k, EventCall(s.io, k, EioCancelled, 0, {}, false));
      SmoothSame(s1, s2, fd, {k.wt});
      if |removed| != r || |reg.pollfds| != n {
        tripped := true;
        return;
      }
      Finish(place, parent, fd, s.open);
      if !tripped {
        OpenWork(s, s1.open);
        FinishShuts(s2, fd, shape, s.open);
        CancelClosed(s, s1, s2, View(), k);
      }
    }

    lemma PollsAre()
      requires Linked()
      ensures reg.pollfds == io.polls && |io.timed| == |reg.timed|
      ensures forall i :: 0 <= i < |reg.timed| ==> reg.timed[i].deadline == io.timed[i].deadline
    {
      reg.SameDeadlines();
    }

    /** One API call by a callback. */
    method Perform(a: Action)
      requires !tripped && (status.Running? || status.Stopping?) && Ok(View()) && Linked()
        && (status.Running? ==> heldEvents == multiset{})
      modifies this, delays, reg, reg.tree, buf, buf.data
      ensures buf.data == old(buf.data) || fresh(buf.data)
      ensures wakeups == old(wakeups)
      ensures !tripped ==> Linked() && walking == old(walking) && Performed(old(View()), View(), a)
      ensures Calm(a, old(walking), old(io).polls) ==>
        !tripped && removed == old(removed) && shape == old(shape) && |io.polls| == |old(io).polls|
      ensures old(status).Stopping? ==>
        (tripped <==> old(walking) && a.SchedTimeout?) && View() == old(View()).(now := now)
        && reg.tree.mem == old(reg.tree.mem)
      decreases Work(View()) + ActionWeight(a), 4
    {
      hide *;
      ghost var s, calm := View(), Calm(a, walking, io.polls);
      Fields();
      IdleStep(s, ActionWeight(a));
      if calm {
        CalmIs(a, walking, io.polls);
      }
      var err: ErrCode;
      match a
      case Stop =>
        err := Stop();
        StopStep(s);
        RanStop(s);
        Fields();
        PerformedBy(s, View(), a);
      case Reset =>
        err := Reset();
        RanIdle(s, a);
        Fields();
        PerformedBy(s, View(), a);
      case Run =>
        // a nested iosvc_run is refused
        err := EioInprogress;
        RanIdle(s, a);
        PerformedBy(s, View(), a);
      case Post(_) | PostDelay(_, _) =>
        PerformPost(a);
      case _ =>
        PerformEvent(a);
    }

    /** The calls that post, now or later. */
    method PerformPost(a: Action)
      requires (status.Running? || status.Stopping?) && Ok(View()) && Linked() && (a.Post? || a.PostDelay?)
      modifies this`now, this`sync, this`posts, this`taken, delays, buf, buf.data
      ensures buf.data == old(buf.data) || fresh(buf.data)
      ensures Linked() && Performed(old(View()), View(), a)
      ensures old(status).Stopping? ==> View() == old(View()).(now := now)
    {
      hide *;
      ghost var s := View();
      Fields();
      IdleStep(s, ActionWeight(a));
      var err: ErrCode;
      match a
      case Post(hnd) =>
        err := Post(hnd);
        PostStep(s, hnd, err);
        RanPost(s, hnd, err);
        Fields();
        PerformedBy(s, View(), a);
      case PostDelay(hnd, ms) =>
        err := PostDelay(hnd, ms);
        DelayStep(s, now, hnd, ms, err);
        RanDelay(s, now, hnd, ms, err);
        Fields();
        PerformedBy(s, View(), a);
    }

    /** The calls about events. */
    method PerformEvent(a: Action)
      requires !tripped && (status.Running? || status.Stopping?) && Ok(View()) && Linked()
        && (status.Running? ==> heldEvents == multiset{})
      requires a.Sched? || a.SchedTimeout? || a.Cancel?
      modifies this, delays, reg, reg.tree, buf, buf.data
      ensures buf.data == old(buf.data) || fresh(buf.data)
      ensures wakeups == old(wakeups)
      ensures !tripped ==> Linked() && walking == old(walking) && Performed(old(View()), View(), a)
      ensures Calm(a, old(walking), old(io).polls) ==>
        !tripped && removed == old(removed) && shape == old(shape) && |io.polls| == |old(io).polls|
      ensures old(status).Stopping? ==>
        (tripped <==> old(walking) && a.SchedTimeout?) && View() == old(View()).(now := now)
        && reg.tree.mem == old(reg.tree.mem)
      decreases Work(View()) + ActionWeight(a), 3
    {
      hide *;
      ghost var s, calm := View(), Calm(a, walking, io.polls);
      Fields();
      IdleStep(s, ActionWeight(a));
      if calm {
        CalmIs(a, walking, io.polls);
      }
      var err: ErrCode;
      match a
      case Sched(fd, wt, hnd) =>
        if status == Stopping {
          StoppingRefuses(s, fd, wt, hnd);
        }
        err := Sched(fd, wt, hnd);
        if !tripped {
          SchedStep(s, fd, wt, hnd, err, shape);
          GrowsNot(s, fd, shape);
          RanSched(s, fd, wt, hnd, err, shape);
          Fields();
          PerformedBy(s, View(), a);
        }
        Fields();
      case SchedTimeout(fd, wt, hnd, ms) =>
        if status == Stopping {
          StoppingRefuses(s, fd, wt, hnd);
        }
        err := SchedTimeout(fd, wt, hnd, ms);
        if !tripped {
          TimeoutStep(s, now, fd, wt, hnd, ms, err, shape);
          GrowsNot(s, fd, shape);
          RanTimed(s, now, fd, wt, hnd, ms, err, shape);
          Fields();
          PerformedBy(s, View(), a);
        }
        Fields();
      case Cancel(fd, wt) =>
        err := Cancel(fd, wt);
        Fields();
        if !tripped {
          StepsLog(s, View());
          RanCancel(s, View(), fd, wt);
          PerformedCancel(s, View(), fd, wt);
        }
    }

    /** What a callback does. */
    method RunScript(script: seq<Action>)
      requires Active() && Ok(View()) && Linked() && (status.Running? ==> heldEvents == multiset{})
      modifies this, delays, reg, reg.tree, buf, buf.data
      ensures buf.data == old(buf.data) || fresh(buf.data)
      ensures !tripped ==> Ok(View()) && Linked() && Steps(old(View()), View()) && Quiet(old(View()), View())
      ensures wakeups == old(wakeups)
      ensures !tripped ==> walking == old(walking) && OnlyCancels(log, |old(log)|, script)
      ensures !tripped ==> Work(View()) <= old(Work(View())) + ScriptWeight(script)
      ensures !tripped ==> Ran(old(View()), View(), script) && Performs(old(View()), View(), script)
      ensures !tripped && old(status).Running? && NoCancels(script) ==>
        var heard := Heard(Running, script);
        && sync == old(sync) + PostsOf(Running, script)
        && (forall i, k :: FirstFor(heard, i, k) && k !in old(io).regs ==>
              k in io.regs && io.regs[k] == heard[i].hnd.value)
        && (forall d: Delayed | d.ms >= 0 ::
              Tally(taken, d) == Tally(old(taken), d) + multiset(heard)[Action.PostDelay(Some(d.hnd), d.ms)])
      ensures CalmScript(script, old(walking), old(io).polls) ==>
        !tripped && removed == old(removed) && shape == old(shape) && |io.polls| == |old(io).polls|
      ensures old(status).Stopping? ==>
        (tripped <==> old(walking) && HasTimed(script)) && View() == old(View()).(now := now)
        && reg.tree.mem == old(reg.tree.mem)
      decreases Work(View()) + ScriptWeight(script), 5
    {
      hide *;
      ghost var s := View();
      Fields();
      MidwayStarts(s, script, walking);
      PerformsNone(s, script);
      var i := 0;
      while i < |script|
        invariant buf.data == old(buf.data) || fresh(buf.data)
        invariant i <= |script| && !tripped && (status.Running? || status.Stopping?) && Linked()
        invariant walking == old(walking) && wakeups == old(wakeups) && Midway(s, View(), script, i, walking)
        invariant s.status.Stopping? ==> reg.tree.mem == old(reg.tree.mem)
        invariant Performs(s, View(), script[..i])
      {
        ghost var s1 := View();
        MidwayFacts(s, s1, script, i, walking);
        Fields();
        Perform(script[i]);
        Fields();
        if tripped {
          TimedNext(script, i);
          return;
        }
        PerformedFacts(s1, View(), script[i]);
        PerformsNext(s, s1, View(), script, i);
        MidwayNext(s, s1, View(), script, i, walking);
        i := i + 1;
        MidwayFacts(s, View(), script, i, walking);
      }
      MidwayEnds(s, View(), script, walking);
      assert script[..i] == script;
      RanMeans(s, View(), script);
      Fields();
    }

    // ---------- the phases of a round ----------

    /** run_sync_handlers: the handlers run in the order of posting, including those posted meanwhile.  `ran` are
        the handlers that have run: of callbacks that only post, delay and stop, these are the ones that queued
        and then, in order, all that they themselves post until one of them stops the service. */
    method RunSync() returns (ghost ran: seq<Handler>)
      requires Active() && Ok(View()) && Linked() && AtRest(View())
      modifies this, delays, reg, reg.tree, buf, buf.data
      ensures buf.data == old(buf.data) || fresh(buf.data)
      ensures !tripped ==> Ok(View()) && Linked() && AtRest(View()) && Goes(old(View()), View()) && sync == []
      ensures wakeups == old(wakeups)
      ensures !tripped ==> walking == old(walking) && Flows(old(View()), View())
      ensures !tripped ==> AllUnpolled(log, |old(log)|, |log|)
      ensures TamePosts(old(sync)) && !old(walking) ==>
        && !tripped && removed == old(removed) && shape == old(shape) && |io.polls| == |old(io).polls|
        && log == old(log) + Runs(ran) && ran == old(sync) + PostsOf(old(status), Scripts(ran))
    {
      hide Ok, Steps, Work, Goes, AtRest, Linked, Flows, PostsOf, Scripts, Runs, TamePosts, AllUnpolled, NoCancels,
        FrontBrought, Following;
      ghost var s := View();
      ran := [];
      GoesRefl(s);
      ServesRefl(s);
      QueueIs();
      NoneRan(s);
      NoneUnpolled(log);
      while !buf.Empty()
        invariant buf.data == old(buf.data) || fresh(buf.data)
        invariant buf.Valid() && (buf.Empty() <==> sync == [])
        invariant Active() && Ok(View()) && Linked() && AtRest(View())
        invariant Goes(s, View()) && Flows(s, View()) && walking == old(walking) && wakeups == old(wakeups)
        invariant AllUnpolled(log, |s.log|, |log|)
        invariant TamePosts(s.sync) && !walking ==>
          removed == s.removed && shape == s.shape && |io.polls| == |s.io.polls| && RanSoFar(s, View(), ran)
        decreases Work(View())
      {
        ghost var s1 := View();
        if TamePosts(s.sync) && !walking {
          FrontIsTame(s, s1, ran);
        }
        RunFront();
        if tripped {
          return;
        }
        QueueIs();
        FlowsTrans(s, s1, View());
        GoesTrans(s, s1, View());
        GoesStatus(s, s1);
        GoesStatus(s1, View());
        FrontUnpolled(s1.log, log, |s.log|);
        if TamePosts(s.sync) && !walking {
          RanOneMore(s, s1, View(), ran);
        }
        ran := ran + [s1.sync[0]];
      }
      if TamePosts(s.sync) && !walking {
        AllRan(s, View(), ran);
      }
    }

    /** One posted handler: it stays in the buffer while it runs. */
    method RunFront()
      requires Active() && Ok(View()) && Linked() && AtRest(View()) && sync != []
      modifies this, delays, reg, reg.tree, buf, buf.data
      ensures buf.data == old(buf.data) || fresh(buf.data)
      ensures !tripped ==> Ok(View()) && Linked() && AtRest(View()) && Goes(old(View()), View())
      ensures wakeups == old(wakeups)
      ensures !tripped ==> walking == old(walking) && Work(View()) < old(Work(View()))
      ensures !tripped ==> |log| > |old(log)| && log[|old(log)|] == RunPost(old(sync)[0]) && Following(log, |old(log)|)
      ensures !tripped ==>
        Flows(old(View()), View()) && (NoCancels(old(sync)[0].script) ==> FrontBrought(old(View()), View()))
      ensures CalmScript(old(sync)[0].script, old(walking), old(io).polls) ==>
        && !tripped && removed == old(removed) && shape == old(shape) && |io.polls| == |old(io).polls|
        && FrontRun(old(View()), View())
    {
      hide Ok, Steps, Work, Goes, AtRest, Quiet, StatusSteps, Linked, OnlyCancels, Following, CalmScript, Ran, Flows,
        FrontRun, FrontBrought, NoCancels, Heard, PostsOf, FirstFor, Tally, Performs, HasTimed;
      ghost var s := View();
      FrontStarts(s);
      var hnd := StartFront();
      RunScript(hnd.script);
      if !tripped {
        FrontEnded(s, View(), walking);
        PopFront();
      }
    }

    /** The front of the queue, which stays there while it runs. */
    method StartFront() returns (hnd: Handler)
      requires Linked() && sync != []
      modifies this`log, this`running
      ensures hnd == old(sync)[0] && View() == Started(old(View())) && Linked()
    {
      hide RegistryRep.Represents;
      hnd := buf.Front();
      log := log + [RunPost(hnd)];
      running := 1;
    }

    lemma QueueIs()
      requires Linked()
      ensures buf.Valid() && buf.Contents() == sync
    {
      hide RegistryRep.Represents;
    }

    /** cbuf_pop */
    method PopFront()
      requires Linked() && sync != []
      modifies this`sync, this`running, buf
      ensures buf.data == old(buf.data)
      ensures View() == Popped(old(View())) && Linked()
    {
      hide RegistryRep.Represents;
      buf.Pop();
      sync := sync[1..];
      running := 0;
    }

    /** timeout_first */
    method TimeoutFirst(isEvent: bool, at: int)
      requires Active() && Ok(View()) && Linked() && AtRest(View()) && at <= now
      requires
        var (d, ev) := NextDeadline(delays.elems, io.timed);
        isEvent == ev && d != -1 && d <= at
      modifies this, delays, reg, reg.tree, buf, buf.data
      ensures buf.data == old(buf.data) || fresh(buf.data)
      ensures !tripped ==> Ok(View()) && Linked() && AtRest(View()) && Goes(old(View()), View())
      ensures wakeups == old(wakeups)
      ensures !tripped ==> walking == old(walking)
      ensures !tripped ==> |log| > |old(log)| && TimedOutCall(log[|old(log)|]) && Following(log, |old(log)|)
      ensures !tripped && isEvent ==>
        old(io).timed != []
        && var k := old(io).timed[0].item.key;
        k in old(io).regs && log[|old(log)|] == EventCall(old(io), k, EioTimeout, at, {}, true)
      ensures !tripped && !isEvent ==>
        old(delays.elems) != [] && log[|old(log)|] == RunDelay(old(delays.elems)[0], EioOk, at, true)
        && multiset(delays.elems) == old(multiset(delays.elems)) - multiset{old(delays.elems)[0]} + (taken - old(taken))
      ensures !tripped ==> Flows(old(View()), View()) && (isEvent ==> Serves(old(View()), View()))
      ensures !tripped ==> Tracks(old(View()), View()) && IsTimeout(old(View()).(now := at), log[|old(log)|])
      ensures isEvent && CalmTop(old(io), old(walking)) ==>
        if tripped then shape == old(shape) && StuckAt(io, shape, old(io).timed[0].item.key.fd)
        else Passed(old(View()), View(), Some(old(io).timed[0].item.key))
      ensures !isEvent && old(delays.elems) != []
              && CalmScript(old(delays.elems)[0].item.hnd.script, old(walking), old(io).polls)
              ==> !tripped && Passed(old(View()), View(), None)
    {
      hide Ok, Linked, AtRest, Goes, NextDeadline, CalmTop, CalmScript, OnlyCancels, Following, StuckAt, Flows, Serves,
        Passed;
      ghost var s := View();
      NextDeadlineLeast(s);
      if isEvent {
        TimeoutCall(View(), at);
        TimeoutEvent(at);
        if !tripped {
          ServesFlows(s, View());
        }
      } else {
        TimeoutDelayed(at);
      }
    }

    /** Lines 201-219.  The link to the node is looked up again after the callback, so only the removal of
        this very node is excluded, and an extraction that loses its parent. */
    method TimeoutEvent(at: int)
      requires Active() && Ok(View()) && Linked() && AtRest(View())
      requires io.timed != [] && io.timed[0].deadline <= at && LeastOfAll(delays.elems, io.timed, io.timed[0].deadline)
      modifies this, delays, reg, reg.tree, buf, buf.data
      ensures buf.data == old(buf.data) || fresh(buf.data)
      ensures wakeups == old(wakeups)
      ensures !tripped ==> Ok(View()) && Linked() && walking == old(walking) && Serves(old(View()), View())
      ensures
        var k := old(io).timed[0].item.key;
        k in old(io).regs
        && (!tripped ==> Delivered(old(View()), View(), EventCall(old(io), k, EioTimeout, at, {}, true)))
        && (CalmTop(old(io), old(walking)) ==>
              if tripped then shape == old(shape) && StuckAt(io, shape, k.fd) else Passed(old(View()), View(), Some(k)))
    {
      hide Ok, Steps, Work, CallOk, EventCall, HasPoll, LeastOfAll, Linked, CalmScript, AtRest, EventSlots.Pending,
        RbShape.InOrder, Invoked, Serves, Delivered, Smooth, Passed, StuckAt, Performs, Fired, TimerFor, FindTimer,
        Registry.KeepsNodes, Following, OnlyCancels, Tracks;
      ghost var s, k := View(), io.timed[0].item.key;
      TimeoutCall(s, at);
      var x, wt, fd := OpenTop();
      var r := |removed|;
      ghost var s1 := View();
      ghost var least := LeastOfAll(delays.elems, io.timed, s.io.timed[0].deadline);
      Fire(x, wt, at, EioTimeout, k, {}, least);
      if !tripped {
        CloseTimedOut(x, fd, r, s, s1, k, EventCall(s.io, k, EioTimeout, at, {}, least));
      }
    }

    /** Line 204. */
    method OpenTop() returns (x: RbShape.Ptr, wt: WaitType, fd: int)
      requires Ok(View()) && AtRest(View()) && Linked() && io.timed != []
      modifies this`open
      ensures Key(fd, wt) == io.timed[0].item.key && View() == old(View()).(open := {fd})
      ensures Ok(View()) && Linked() && heldEvents == multiset{}
      ensures x in reg.tree.mem && reg.tree.mem[x].fd == fd && EventSlots.Pending(reg.tree.mem[x].slots, wt).Some?
      ensures RbShape.Id(x, fd) in RbShape.InOrder(shape)
    {
      hide Ok, Linked, AtRest, EventSlots.Pending, RbShape.InOrder;
      TopIs();
      x, wt := reg.timed[0].item.node, reg.timed[0].item.wt;
      fd := reg.tree.mem[x].fd;
      OpenOne(View(), fd);
      open := {fd};
    }

    /** Lines 212-219: the node is looked up again; `s` is the state before it was opened, `s1` that in which its
        handler was called. */
    method CloseTimedOut(x: RbShape.Ptr, fd: int, r: nat, ghost s: Snap, ghost s1: Snap, ghost k: Key, ghost c: Call)
      requires !tripped && Ok(View()) && Linked() && AtRest(s) && k.fd == fd
      requires s1 == s.(open := {fd}) && Invoked(s1, View(), k, c) && r == |s.removed|
      requires RbShape.Id(x, fd) in RbShape.InOrder(s.shape)
      modifies this`io, this`shape, this`removed, this`open, this`tripped, reg, reg.tree
      ensures !tripped ==> Ok(View()) && Linked() && Delivered(s, View(), c) && Serves(s, View())
      ensures Smooth(s1, old(View()), fd, {k.wt}) ==>
        if tripped then shape == s.shape && StuckAt(io, shape, fd) else Passed(s, View(), Some(k))
    {
      hide Ok, Steps, HasPoll, EventsOf, Cleaned, Linked, AtRest, Leads, RbShape.InOrder, Registry.KeepsNodes, Invoked,
        Serves, Delivered, Smooth, Passed, StuckAt, Shut, Called, Following, Work;
      ghost var s2 := View();
      InvokedFacts(s1, s2, k, c);
      SmoothSame(s1, s2, fd, {k.wt});
      if fd in removed[r..] {
        tripped := true;
        return;
      }
      NodeStays(s1, s2, RbShape.Id(x, fd));
      var place, parent := LinkTo(x, fd);
      assert {} + {fd} == {fd};
      Finish(place, parent, fd, {});
      if !tripped {
        FinishShuts(s2, fd, shape, {});
        TimeoutServes(s, s1, s2, View(), k, c);
        TimeoutPassed(s, s1, s2, View(), k, c);
      }
    }

    /** The entry on top of the deadline heap. */
    lemma TopIs()
      requires Linked() && io.timed != []
      ensures reg.timed != []
      ensures
        var x, k := reg.timed[0].item.node, io.timed[0].item.key;
        && x in reg.tree.mem && k == Key(reg.tree.mem[x].fd, reg.timed[0].item.wt) && HasPoll(io.polls, k.fd)
        && EventSlots.Pending(reg.tree.mem[x].slots, k.wt).Some? && RbShape.Id(x, k.fd) in RbShape.InOrder(shape)
    {
      hide RegistryRep.Represents, RbShape.InOrder, HasPoll;
      reg.SameDeadlines();
      reg.TopNode();
    }

    /** rb_ref_to_this for a node that is still in the tree. */
    method LinkTo(x: RbShape.Ptr, fd: int) returns (place: RbLinks.Place, parent: RbShape.Ptr)
      requires Linked() && RbShape.Id(x, fd) in RbShape.InOrder(shape)
      ensures Leads(shape, fd, place, parent) && HasPoll(io.polls, fd)
    {
      hide RegistryRep.Represents, RbShape.InOrder, HasPoll;
      reg.SameNode(x, fd);
      reg.Found(fd);
      place, parent := reg.LinkTo(x, fd);
    }

    /** Lines 221-236.  The callback runs before its entry is popped; the entry is still on top then. */
    method TimeoutDelayed(at: int)
      requires Active() && Ok(View()) && Linked() && AtRest(View()) && at <= now && delays.elems != []
      requires delays.elems[0].deadline <= at && LeastOfAll(delays.elems, io.timed, delays.elems[0].deadline)
      modifies this, delays, reg, reg.tree, buf, buf.data
      ensures buf.data == old(buf.data) || fresh(buf.data)
      ensures !tripped ==> Ok(View()) && Linked() && AtRest(View()) && Goes(old(View()), View())
      ensures wakeups == old(wakeups)
      ensures !tripped ==> walking == old(walking)
      ensures !tripped ==>
        |log| > |old(log)| && log[|old(log)|] == RunDelay(old(delays.elems)[0], EioOk, at, true)
        && Following(log, |old(log)|)
        && multiset(delays.elems) == old(multiset(delays.elems)) - multiset{old(delays.elems)[0]} + (taken - old(taken))
      ensures !tripped ==> Flows(old(View()), View()) && Tracks(old(View()), View())
      ensures !tripped && NoCancels(old(delays.elems)[0].item.hnd.script) ==>
        Brought(old(View()), View(), old(delays.elems)[0].item.hnd.script, None)
      ensures CalmScript(old(delays.elems)[0].item.hnd.script, old(walking), old(io).polls) ==>
        !tripped && Passed(old(View()), View(), None)
    {
      hide Ok, Steps, Work, Goes, LeastOfAll, HeapOrdered, PopTop, AtRest, Quiet, StatusSteps, CalmScript, Linked,
        OnlyCancels, Following, Ran, Flows, Passed, Tracks, NoCancels, Brought, Heard, PostsOf, FirstFor, Tally,
        Performs, HasTimed;
      ghost var s := View();
      var top := delays.elems[0];
      ghost var least := LeastOfAll(delays.elems, io.timed, top.deadline);
      DelayedStarts(s, at, least);
      log := log + [RunDelay(top, EioOk, at, least)];
      heldDelays := multiset{top};
      assert View() == Begun(s, at, least);
      RunScript(top.item.hnd.script);
      if tripped {
        return;
      }
      ghost var s2 := View();
      DelayedEnds(s, at, least, s2);
      StepsLog(Begun(s, at, least), s2);
      StepsTracks(Begun(s, at, least), s2);
      CancelsFollow(Begun(s, at, least).log, log, top.item.hnd.script);
      DelayedFlows(s, at, least, s2);
      if CalmScript(top.item.hnd.script, walking, s.io.polls) {
        DelayedPassed(s, at, least, s2, walking);
      }
      PopDelayed();
    }

    /** Lines 228-236. */
    method PopDelayed()
      requires delays.elems != [] && HeapOrdered(delays.elems)
      modifies this`heldDelays, delays
      ensures View() == Ended(old(View()))
    {
      hide PopTop, HeapOrdered;
      delays.RemoveTop();
      heldDelays := multiset{};
    }

    // ---------- dispatch ----------

    /** Dequeue and call one handler of the entry `p` being examined, `i` its index and `s0` the state when its
        examination began.  The link captured then is used, so the tree must have kept its shape, and the type
        must be registered. */
    method Answer(place: RbLinks.Place, wt: WaitType, code: ErrCode, at: int, n: nat, r: nat, ghost i: nat,
        ghost p: PollFd, ghost done: set<WaitType>, ghost s0: Snap)
      requires Active() && Linked() && Turning(s0, View(), p, at, done) && |s0.removed| == r && n == |s0.io.polls|
      requires i < n && s0.io.polls[i] == p && PlaceIs(s0.shape, p.fd, place)
      requires code == CodeFor(p) && CalledFor(p, wt) && wt !in done
      requires forall first :: first in done ==> InTurn(code, first, wt)
      modifies this, delays, reg, reg.tree, buf, buf.data
      ensures buf.data == old(buf.data) || fresh(buf.data)
      ensures !tripped ==> Active() && Linked() && walking == old(walking)
      ensures wakeups == old(wakeups)
      ensures !tripped ==> Work(View()) < old(Work(View())) && old(log) <= log
      ensures !tripped ==>
        Turning(s0, View(), p, at, done + {wt}) && Due(s0.io.regs, |s0.log|, log, Key(p.fd, wt), code)
      ensures
        && |old(io).polls| == n && Key(p.fd, wt) in old(io).regs
        && CalmScript(old(io).regs[Key(p.fd, wt)].script, old(walking), old(io).polls)
        ==> !tripped && Smooth(old(View()), View(), p.fd, {wt})
    {
      hide Ok, Steps, Work, CallOk, EventCall, Due, Stage, Linked, HasPoll, CalmScript, Fires, EventSlots.Pending,
        Called, Serves, Smooth, Invoked, Turning, Performs, Fired;
      ghost var s1, k := View(), Key(p.fd, wt);
      TurnFacts(s0, s1, p, at, done);
      PollsAre();
      if |reg.pollfds| != n {
        tripped := true;
        return;
      }
      SamePlace(s0, s1, i);
      LinkAt(p.fd, place, i);
      var x := reg.tree.Load(place);
      if !EventSlots.IsScheduled(reg.tree.mem[x].slots, wt) {
        tripped := true;
        return;
      }
      AnswerCall(s1, k, code, at, p.revents);
      Fire(x, wt, at, code, k, p.revents, false);
      if tripped {
        return;
      }
      InvokedFacts(s1, View(), k, EventCall(s1.io, k, code, at, p.revents, false));
      SmoothSame(s1, View(), p.fd, {wt});
      if |removed| != r {
        tripped := true;
        return;
      }
      TurnTaken(s0, s1, View(), p, at, done, wt, code);
    }

    /** What a captured link leads to while the tree is the same. */
    lemma LinkAt(fd: int, place: RbLinks.Place, i: nat)
      requires Linked() && i < |io.polls| && io.polls[i].fd == fd
      requires PlaceIs(shape, fd, place)
      ensures place.ChildRef? ==> place.p in reg.tree.mem
      ensures
        var x := reg.tree.Load(place);
        x in reg.tree.mem && reg.tree.mem[x].fd == fd
        && forall wt :: EventSlots.Pending(reg.tree.mem[x].slots, wt).Some? <==> Key(fd, wt) in io.regs
    {
      hide RegistryRep.Represents;
      HasPollIff(io.polls, fd);
      reg.Found(fd);
    }

    /** One turn of the loop in lines 258-263. */
    method Refuse(place: RbLinks.Place, wt: WaitType, at: int, n: nat, r: nat, i: nat, ghost p: PollFd,
        ghost done: set<WaitType>, ghost s0: Snap)
      requires Active() && Linked() && Turning(s0, View(), p, at, done) && |s0.removed| == r && n == |s0.io.polls|
      requires i < n && s0.io.polls[i] == p && PlaceIs(s0.shape, p.fd, place) && PollNval in p.revents && wt !in done
      requires forall first :: first in done ==> InTurn(EioInvarg, first, wt)
      modifies this, delays, reg, reg.tree, buf, buf.data
      ensures buf.data == old(buf.data) || fresh(buf.data)
      ensures !tripped ==> Active() && Linked() && walking == old(walking)
      ensures wakeups == old(wakeups)
      ensures !tripped ==> Work(View()) < old(Work(View())) || View() == old(View())
      ensures !tripped ==>
        Turning(s0, View(), p, at, done + {wt}) && old(log) <= log
        && Due(s0.io.regs, |s0.log|, log, Key(p.fd, wt), EioInvarg)
      ensures TameRegs(s0.io.regs) && !old(walking) && Smooth(s0, old(View()), p.fd, done) ==>
        !tripped && Smooth(s0, View(), p.fd, done + {wt})
    {
      hide Ok, Steps, Work, Due, Stage, Linked, EventsOf, FindPoll, Fires, Accounted, PollsKept, Leads, Serves, Smooth,
        TameRegs, CalmScript, Turning;
      PollsAre();
      ghost var s1 := View();
      TurnFacts(s0, s1, p, at, done);
      SamePlace(s0, s1, i);
      EntryEvents(s1, i);
      ghost var calm := TameRegs(s0.io.regs) && !walking && Smooth(s0, s1, p.fd, done);
      if TypeFlag(wt) in reg.pollfds[i].events {
        if calm {
          TurnIsCalm(s0, s1, Key(p.fd, wt), done);
        }
        Answer(place, wt, EioInvarg, at, n, r, i, p, done, s0);
      } else {
        VanishedDue(s0.io.regs, |s0.log|, io.regs, log, p, at, done, Key(p.fd, wt), EioInvarg);
        TurnSkipped(s0, s1, p, at, done, wt);
      }
      if calm {
        SmoothStage(s0, s1, View(), p.fd, done, wt, done + {wt});
      }
    }

    /** Lines 249-263: every handler of an invalid descriptor is called with EIO_INVARG. */
    method ServeInvalid(place: RbLinks.Place, i: nat, at: int, ghost s: Snap)
      requires Active() && Ok(View()) && Linked() && Ok(s) && AtRest(s)
      requires i < |s.io.polls| && View() == s.(open := {s.io.polls[i].fd}) && PollNval in s.io.polls[i].revents
      requires PlaceIs(shape, s.io.polls[i].fd, place)
      modifies this, delays, reg, reg.tree, buf, buf.data
      ensures buf.data == old(buf.data) || fresh(buf.data)
      ensures !tripped ==> Answered(s, View(), i, at) && Linked()
      ensures !tripped ==> Work(View()) < Work(s) || View() == old(View())
      ensures wakeups == old(wakeups)
      ensures !tripped ==> walking == old(walking) && Serves(old(View()), View())
      ensures TameRegs(s.io.regs) && !old(walking) ==>
        !tripped && Smooth(old(View()), View(), s.io.polls[i].fd, AllTypes)
    {
      hide Ok, Steps, Work, Due, Settled, Stage, Linked, Answered, Serves, Smooth, TameRegs, Turning, PlaceIs, AtRest;
      PollsAre();
      var n, r := |reg.pollfds|, |removed|;
      ghost var s0, p := View(), s.io.polls[i];
      TurnStarts(s, i, at);
      SmoothRefl(s0, p.fd);
      Refuse(place, WaitRead, at, n, r, i, p, {}, s0);
      if tripped {
        return;
      }
      ghost var s1 := View();
      Refuse(place, WaitWrite, at, n, r, i, p, {} + {WaitRead}, s0);
      if tripped {
        return;
      }
      ghost var s2 := View();
      Refuse(place, WaitException, at, n, r, i, p, {} + {WaitRead} + {WaitWrite}, s0);
      if tripped {
        return;
      }
      ghost var s3 := View();
      assert {} + {WaitRead} + {WaitWrite} + {WaitException} == AllTypes;
      TurnsRefused(s, s1.log, s2.log, s3, i, at);
    }

    /** Lines 276-279, 280-286 or 287-290: one type, if it is ready. */
    method Grant(place: RbLinks.Place, wt: WaitType, ready: bool, at: int, n: nat, r: nat, ghost i: nat,
        ghost p: PollFd, ghost done: set<WaitType>, ghost s0: Snap)
      requires Active() && Linked() && Turning(s0, View(), p, at, done) && |s0.removed| == r && n == |s0.io.polls|
      requires i < n && s0.io.polls[i] == p && PlaceIs(s0.shape, p.fd, place)
      requires PollNval !in p.revents && (ready <==> Fires(p.revents, wt)) && wt !in done
      requires forall first :: first in done ==> InTurn(EioOk, first, wt)
      modifies this, delays, reg, reg.tree, buf, buf.data
      ensures buf.data == old(buf.data) || fresh(buf.data)
      ensures !tripped ==> Active() && Ok(View()) && Linked() && walking == old(walking) && i < |io.polls|
      ensures wakeups == old(wakeups)
      ensures !tripped ==> Work(View()) < old(Work(View())) || View() == old(View())
      ensures !tripped ==>
        Turning(s0, View(), p, at, done + {wt}) && old(log) <= log
        && (ready ==> Due(s0.io.regs, |s0.log|, log, Key(p.fd, wt), EioOk))
      ensures TameRegs(s0.io.regs) && !old(walking) && Awaited(s0.io.regs, p) && Smooth(s0, old(View()), p.fd, done) ==>
        !tripped && Smooth(s0, View(), p.fd, done + {wt})
      ensures !ready ==> View() == old(View()) && !tripped
    {
      hide Ok, Steps, Work, Due, Stage, Linked, PlaceIs, Fires, Serves, Smooth, TameRegs, Awaited, CalmScript, Turning;
      ghost var s1 := View();
      TurnFacts(s0, s1, p, at, done);
      ghost var calm := TameRegs(s0.io.regs) && !walking && Awaited(s0.io.regs, p) && Smooth(s0, s1, p.fd, done);
      if ready {
        if calm {
          ReadyIsCalm(s0, s1, p, wt, done);
        }
        Answer(place, wt, EioOk, at, n, r, i, p, done, s0);
      } else {
        TurnSkipped(s0, s1, p, at, done, wt);
      }
      TurnFacts(s0, View(), p, at, done + {wt});
      if !tripped {
        SamePlace(s0, View(), i);
      }
      if calm {
        SmoothStage(s0, s1, View(), p.fd, done, wt, done + {wt});
      }
    }

    /** Lines 280-281: a lone error on a descriptor whose mask is POLLERR alone, apart from priority data. */
    method OnlyError(i: nat, revents: Flags) returns (b: bool)
      requires Ok(View()) && Linked() && i < |io.polls|
      ensures !b
    {
      hide Ok, Linked;
      PollsAre();
      EntryEvents(View(), i);
      b := PollErr in revents && reg.pollfds[i].events - {PollPri} == {PollErr};
    }

    /** Lines 271-290: the handlers whose type is ready are called with EIO_OK, priority first, then read,
        then write.  The condition on a lone error never holds, because no mask is POLLERR alone. */
    method ServeReady(place: RbLinks.Place, i: nat, at: int, ghost s: Snap)
      requires Active() && Ok(View()) && Linked() && Ok(s) && AtRest(s)
      requires i < |s.io.polls| && View() == s.(open := {s.io.polls[i].fd}) && PollNval !in s.io.polls[i].revents
      requires PlaceIs(shape, s.io.polls[i].fd, place)
      modifies this, delays, reg, reg.tree, buf, buf.data
      ensures buf.data == old(buf.data) || fresh(buf.data)
      ensures wakeups == old(wakeups)
      ensures !tripped ==> Answered(s, View(), i, at) && Linked()
      ensures !tripped ==> Work(View()) < Work(s) || View() == old(View())
      ensures !tripped ==> walking == old(walking) && Serves(old(View()), View())
      ensures TameRegs(s.io.regs) && !old(walking) && Awaited(s.io.regs, s.io.polls[i]) ==>
        !tripped && Smooth(old(View()), View(), s.io.polls[i].fd, AllTypes)
      ensures (forall wt :: !Fires(s.io.polls[i].revents, wt)) ==> View() == old(View()) && !tripped
    {
      hide Ok, Steps, Work, Due, Settled, Fires, Stage, Linked, PlaceIs, Serves, Smooth, TameRegs, Awaited, CalledFor,
        Answered, Turning, AtRest;
      PollsAre();
      var n, r, revents := |reg.pollfds|, |removed|, reg.pollfds[i].revents;
      ghost var s0, p := View(), s.io.polls[i];
      TurnStarts(s, i, at);
      SmoothRefl(s0, p.fd);
      var hasPriority, hasRead := Fires(revents, WaitException), Fires(revents, WaitRead);
      var hasWrite := Fires(revents, WaitWrite);
      Grant(place, WaitException, hasPriority, at, n, r, i, p, {}, s0);
      if tripped {
        return;
      }
      ghost var s1 := View();
      var onlyError := OnlyError(i, revents);
      Grant(place, WaitRead, (!hasRead && !hasWrite && onlyError) || hasRead, at, n, r, i, p, {} + {WaitException}, s0);
      if tripped {
        return;
      }
      ghost var s2 := View();
      Grant(place, WaitWrite, hasWrite, at, n, r, i, p, {} + {WaitException} + {WaitRead}, s0);
      if tripped {
        return;
      }
      ghost var s3 := View();
      assert {} + {WaitException} + {WaitRead} + {WaitWrite} == AllTypes;
      TurnsGranted(s, s1.log, s2.log, s3, i, at);
    }

    /** One turn of the loop in dispatch_ready_events, returning the index to go on with. */
    method Examine(i: nat, at: int) returns (next: nat)
      requires Active() && Ok(View()) && Linked() && AtRest(View()) && i < |io.polls|
      modifies this, delays, reg, reg.tree, buf, buf.data
      ensures buf.data == old(buf.data) || fresh(buf.data)
      ensures !tripped ==>
        Examined(old(View()), View(), i, next, at) && Progress(old(View()), View(), i, next) && Linked()
      ensures wakeups == old(wakeups)
      ensures !tripped ==> walking == old(walking) && Serves(old(View()), View())
      ensures TameRegs(old(io).regs) && !old(walking) && Awaited(old(io).regs, old(io).polls[i]) ==>
        if tripped then shape == old(shape) && StuckAt(io, shape, old(io).polls[i].fd)
        else KeptOff(old(View()), View(), old(io).polls[i].fd)
      ensures (forall wt :: !CalledFor(old(io).polls[i], wt)) ==> !tripped && View() == old(View()) && next == i + 1
    {
      hide Ok, Steps, Work, Fires, Examined, AtRest, Linked, Leads, PlaceIs, Serves, TameRegs, Awaited, KeptOff,
        StuckAt;
      ghost var s := View();
      PollsAre();
      var p, n := reg.pollfds[i], |reg.pollfds|;
      var place, parent := FindLink(p.fd);
      OpenOne(s, p.fd);
      open := {p.fd};
      if PollNval in p.revents {
        assert CalledFor(p, WaitRead);
        ExamineInvalid(place, parent, p.fd, i, at, n, s);
        next := i;
      } else {
        CalledForReady(p);
        next := ExamineReady(place, parent, p.fd, i, at, n, s);
      }
    }

    /** Lines 249-269. */
    method ExamineInvalid(place: RbLinks.Place, parent: RbShape.Ptr, fd: int, i: nat, at: int, n: nat,
        ghost s: Snap)
      requires Active() && Ok(View()) && Linked() && Ok(s) && AtRest(s) && i < n == |s.io.polls|
      requires fd == s.io.polls[i].fd
      requires View() == s.(open := {fd}) && PollNval in s.io.polls[i].revents
      requires Leads(shape, fd, place, parent) && PlaceIs(shape, fd, place)
      modifies this, delays, reg, reg.tree, buf, buf.data
      ensures buf.data == old(buf.data) || fresh(buf.data)
      ensures !tripped ==> Examined(s, View(), i, i, at) && Progress(s, View(), i, i) && Linked()
      ensures wakeups == old(wakeups)
      ensures !tripped ==> walking == old(walking) && Serves(s, View())
      ensures TameRegs(s.io.regs) && !old(walking) ==>
        if tripped then shape == s.shape && StuckAt(io, shape, fd)
        else KeptOff(s, View(), fd)
    {
      hide Ok, Steps, Work, EventsOf, FindPoll, HasPoll, Settled, Examined, Answered, AtRest, Linked, Leads, PlaceIs,
        TreeShrinks, Serves, Smooth, TameRegs, KeptOff, StuckAt, Shut;
      ghost var s0 := View();
      ServeInvalid(place, i, at, s);
      if tripped {
        return;
      }
      ghost var s1 := View();
      InvalidExamined(s, s1, i, at, shape);
      ClearRevents(i);
      ghost var s2 := View();
      assert s2 == s1.(io := Cleared(s1.io, i));
      AnsweredTree(s, s1, i, at);
      ClearedShuts(s1, i);
      SmoothOff(s0, s1, fd, AllTypes);
      var next := Leave(place, parent, i, fd, n);
      if !tripped {
        InvalidExamined(s, s1, i, at, shape);
        ExaminedServes(s, s0, s1, s2, View(), fd);
      }
    }

    /** Lines 271-297. */
    method ExamineReady(place: RbLinks.Place, parent: RbShape.Ptr, fd: int, i: nat, at: int, n: nat,
        ghost s: Snap) returns (next: nat)
      requires Active() && Ok(View()) && Linked() && Ok(s) && AtRest(s) && i < n == |s.io.polls|
      requires fd == s.io.polls[i].fd
      requires View() == s.(open := {fd}) && PollNval !in s.io.polls[i].revents
      requires Leads(shape, fd, place, parent) && PlaceIs(shape, fd, place)
      modifies this, delays, reg, reg.tree, buf, buf.data
      ensures buf.data == old(buf.data) || fresh(buf.data)
      ensures !tripped ==> Examined(s, View(), i, next, at) && Progress(s, View(), i, next) && Linked()
      ensures wakeups == old(wakeups)
      ensures !tripped ==> walking == old(walking) && Serves(s, View())
      ensures TameRegs(s.io.regs) && !old(walking) && Awaited(s.io.regs, s.io.polls[i]) ==>
        if tripped then shape == s.shape && StuckAt(io, shape, fd)
        else KeptOff(s, View(), fd)
      ensures (forall wt :: !Fires(s.io.polls[i].revents, wt)) ==> !tripped && View() == s && next == i + 1
    {
      hide Ok, Steps, Work, EventsOf, FindPoll, HasPoll, Settled, Fires, Examined, Answered, Linked, Leads,
        PlaceIs, TreeShrinks, Serves, Smooth, TameRegs, Awaited, KeptOff, StuckAt, Shut;
      ghost var s0 := View();
      IdleNever(s, i);
      ServeReady(place, i, at, s);
      next := i;
      if tripped {
        return;
      }
      ghost var s1 := View();
      ReadyExamined(s, s1, i, at, shape);
      AnsweredTree(s, s1, i, at);
      SmoothOff(s0, s1, fd, AllTypes);
      ShutRefl(s1);
      next := Leave(place, parent, i, fd, n);
      if !tripped {
        ReadyExamined(s, s1, i, at, shape);
        ExaminedServes(s, s0, s1, s1, View(), fd);
      }
    }

    method FindLink(fd: int) returns (place: RbLinks.Place, parent: RbShape.Ptr)
      requires Linked()
      ensures Leads(shape, fd, place, parent) && PlaceIs(shape, fd, place)
    {
      place, parent := reg.Find(fd);
    }

    /** Line 265. */
    method ClearRevents(i: nat)
      requires Linked() && i < |io.polls|
      modifies this`io, reg, reg.tree
      ensures Linked() && io == Cleared(old(io), i)
    {
      hide RegistryRep.Represents;
      PollsAre();
      reg.SetRevents(reg.pollfds[i := reg.pollfds[i].(revents := {})]);
      io := reg.io;
    }

    /** Lines 266-268 and 292-297. */
    method Leave(place: RbLinks.Place, parent: RbShape.Ptr, i: nat, fd: int, n: nat) returns (next: nat)
      requires !tripped && Ok(View()) && Linked() && i < |io.polls| && io.polls[i].fd == fd && open == {fd}
      requires HasPoll(io.polls, fd) && (|io.polls| == n ==> Leads(shape, fd, place, parent))
      modifies this`io, this`shape, this`removed, this`open, this`tripped, reg, reg.tree
      ensures !tripped ==>
        (View(), next) == Departed(old(View()), i, shape) && Linked() && TreeShrinks(old(View()), i, shape)
      ensures tripped <==> old(io).polls[i].events == {} && (|old(io).polls| != n || LosesAt(old(shape), fd))
      ensures !tripped ==> Shut(old(View()), View())
      ensures tripped && |old(io).polls| == n ==> View() == old(View()) && StuckAt(io, shape, fd)
    {
      hide Ok, Steps, Work, EventsOf, FindPoll, HasPoll, Cleaned, Linked, Leads, LosesAt, Registry.KeepsNodes, Shut,
        StuckAt;
      ghost var s := View();
      PollsAre();
      EntryEvents(s, i);
      next := i;
      if reg.pollfds[i].events == {} {
        if |reg.pollfds| != n {
          tripped := true;
          return;
        }
        Finish(place, parent, fd, {});
        if !tripped {
          FinishShuts(s, fd, shape, {});
        }
      } else {
        assert open == {} + {fd};
        Closed(s, fd, {});
        FinishShuts(s, fd, shape, {});
        open := {};
        next := i + 1;
      }
    }

    /** dispatch_ready_events.  Everything registered at the beginning that an entry of the vector calls for has
        been invoked, with EIO_OK, or EIO_INVARG for an invalid descriptor, unless a callback cancelled it
        before; nothing else has been invoked, and nothing twice.  When callbacks keep to their own descriptor
        and every ready type is registered, that is so unless an emptied descriptor would lose its parent. */
    method Dispatch(at: int)
      requires Active() && Ok(View()) && Linked() && AtRest(View())
      modifies this, delays, reg, reg.tree, buf, buf.data
      ensures buf.data == old(buf.data) || fresh(buf.data)
      ensures !tripped ==> Ok(View()) && Linked() && AtRest(View()) && Goes(old(View()), View())
      ensures wakeups == old(wakeups)
      ensures !tripped ==> walking == old(walking)
      ensures !tripped ==> DispatchDone(old(View()), View(), at) && Serves(old(View()), View())
      ensures TameRegs(old(io).regs) && CoveredFrom(old(io), 0) && !old(walking) ==>
        (tripped <==> Stuck(io, shape)) && Size(View()) <= old(Size(View()))
      ensures NothingCalled(old(io).polls) ==> !tripped && View() == old(View())
    {
      hide Ok, Work, AtRest, Goes, Examined, DispatchDone, Linked, NothingCalled, CalledFor, Serves, TameRegs,
        CoveredFrom, StuckAt, Awaited, KeptOff, Underway;
      ghost var s := View();
      ghost var tame := TameRegs(io.regs) && CoveredFrom(io, 0) && !walking;
      UnderwayStarts(s, at, tame);
      PollsAre();
      var i: nat := 0;
      while i < |reg.pollfds|
        invariant buf.data == old(buf.data) || fresh(buf.data)
        invariant Active() && Linked() && reg.pollfds == io.polls && Underway(s, View(), i, at, tame)
        invariant walking == old(walking) && wakeups == old(wakeups)
        invariant NothingCalled(s.io.polls) ==> View() == s
        decreases Work(View()), |io.polls| - i
      {
        ghost var s1, i1 := View(), i;
        if NothingCalled(s.io.polls) {
          NoneCalled(s.io.polls, i);
        }
        UnderwayFacts(s, s1, i, at, tame);
        i := Examine(i, at);
        if tripped {
          return;
        }
        PollsAre();
        UnderwayStep(s, s1, View(), i1, i, at, tame);
      }
      UnderwayEnds(s, View(), i, at, tame);
    }

    // ---------- polling ----------

    /** poll(): every entry gets new revents, none at all when the time limit is over. */
    method Poll() returns (res: PollResult)
      requires Ok(View()) && Linked()
      modifies this`io, reg, reg.tree
      ensures Linked()
      ensures SameButRevents(old(io).polls, io.polls) && View() == old(View()).(io := old(io).(polls := io.polls))
      ensures res.TimedOut? ==> forall i :: 0 <= i < |io.polls| ==> io.polls[i].revents == {}
      ensures Ok(View()) && Goes(old(View()), View())
    {
      hide Ok, Work, Goes, RegistryRep.Represents;
      res := *;
      ghost var s := View();
      PollsAre();
      var was := reg.pollfds;
      var revents: seq<Flags> := *;
      if res.TimedOut? || |revents| != |was| {
        revents := seq(|was|, _ => {});
      }
      var polls := seq(|was|, i requires 0 <= i < |was| && |revents| == |was| => was[i].(revents := revents[i]));
      ReventsOk(s, polls);
      reg.SetRevents(polls);
      io := reg.io;
    }

    /** is_top_event_ready */
    method TopEventReady() returns (b: bool)
      requires Linked()
      ensures b == TopReady(io)
    {
      hide RegistryRep.Represents, HasPoll;
      PollsAre();
      if reg.timed == [] {
        return false;
      }
      TopIs();
      TopPolled();
      var revents := reg.TopRevents();
      return revents * TopMask(reg.timed[0].item.wt) != {};
    }

    lemma TopPolled()
      requires Linked() && io.timed != [] && HasPoll(io.polls, io.timed[0].item.key.fd)
      ensures
        TopReady(io) <==>
        io.polls[FindPoll(io.polls, io.timed[0].item.key.fd)].revents * TopMask(io.timed[0].item.key.wt) != {}
    {
    }

    /** Lines 323-335: how long to wait, and waiting. */
    method Await() returns (ready: PollResult, isEvent: bool, delay: int, elapsed: int)
      requires Ok(View()) && Linked()
      modifies this`now, this`io, this`wakeups, reg, reg.tree
      ensures Ok(View()) && Linked() && Goes(old(View()), View()) && wakeups == old(wakeups) + [Wakeup(ready, View())]
      ensures SameButRevents(old(io).polls, io.polls)
        && View() == old(View()).(now := now, io := old(io).(polls := io.polls))
      ensures io.polls == [] <==> old(io).polls == []
      ensures
        var (d, ev) := NextDeadline(delays.elems, io.timed);
        isEvent == ev && old(now) <= now - elapsed <= now && delay == PollDelay(d, now - elapsed)
    {
      hide Ok, Steps, Work, Goes, NextDeadline, PollDelay, Linked;
      ghost var s := View();
      PollsAre();
      NextDeadlineSame(delays.elems, io.timed, reg.timed);
      var (deadline, ev) := NextDeadline(delays.elems, reg.timed);
      var pollTime := Clock();
      delay := PollDelay(deadline, pollTime);
      ready := Poll();
      ghost var s2 := View();
      var completion := Clock();
      PolledGoes(s, pollTime, s2, View());
      wakeups := wakeups + [Wakeup(ready, View())];
      isEvent, elapsed := ev, completion - pollTime;
    }

    /** Lines 343-346: a deadline that has passed and is not that of a ready event. */
    method Overdue(isEvent: bool, delay: int, elapsed: int)
      requires !tripped && Ok(View()) && Linked() && AtRest(View()) && status.Running? && !walking && elapsed >= 0
      requires
        var (d, ev) := NextDeadline(delays.elems, io.timed);
        isEvent == ev && delay == PollDelay(d, now - elapsed)
      modifies this, delays, reg, reg.tree, buf, buf.data
      ensures buf.data == old(buf.data) || fresh(buf.data)
      ensures wakeups == old(wakeups)
      ensures !tripped ==> Ok(View()) && Linked() && AtRest(View()) && Goes(old(View()), View()) && !walking
      ensures !tripped ==> Flows(old(View()), View())
      ensures !tripped ==> Tracks(old(View()), View())
      ensures !tripped && Expired(old(View())) ==>
        |log| > |old(log)| && IsTimeout(old(View()), log[|old(log)|]) && Following(log, |old(log)|)
      ensures !Expired(old(View())) ==> !tripped && View() == old(View())
      ensures !tripped ==> forall m :: |old(log)| <= m < |log| ==> InTime(log[m], old(io).timed)
      ensures Orderly(old(View())) && CoveredFrom(old(io), 0) ==>
        (if tripped then Stuck(io, shape) else CoveredFrom(io, 0)) && Size(View()) <= old(Size(View()))
    {
      hide Ok, Steps, Work, Goes, NextDeadline, TopReady, AtRest, EventCall, Linked, OnlyCancels, Following, InTime,
        CalmScript, CalmTop, StuckAt, Flows, Serves, Orderly, CoveredFrom, Passed, Tracks, IsTimeout;
      ghost var s := View();
      StepsRefl(s);
      StepsTracks(s, s);
      ExpiredIff(s, delay, elapsed);
      var topReady := TopEventReady();
      GoesRefl(s);
      ServesRefl(s);
      if elapsed >= delay && delay != -1 && (!isEvent || !topReady) {
        ghost var tame := Orderly(s) && CoveredFrom(io, 0);
        if tame {
          OrderlyTop(s);
        }
        TimeoutFirst(isEvent, now);
        if tripped {
          return;
        }
        GoesLogs(s, View());
        FirstInTime(s, View());
        if tame {
          CoveredAfter(s, View(), if isEvent then Some(s.io.timed[0].item.key) else None);
        }
      }
    }

    /** Lines 343-349: ready descriptors, and possibly a deadline that has passed as well.  Every invocation
        for a timer that was pending when poll() returned is told a time within what was asked for. */
    method OnReady(isEvent: bool, delay: int, elapsed: int) returns (ghost mid: Snap)
      requires !tripped && Ok(View()) && Linked() && AtRest(View()) && status.Running? && !walking && elapsed >= 0
      requires
        var (d, ev) := NextDeadline(delays.elems, io.timed);
        isEvent == ev && delay == PollDelay(d, now - elapsed)
      modifies this, delays, reg, reg.tree, buf, buf.data
      ensures buf.data == old(buf.data) || fresh(buf.data)
      ensures wakeups == old(wakeups)
      ensures !tripped ==> Ok(View()) && Linked() && AtRest(View()) && Goes(old(View()), View()) && !walking
      ensures !tripped ==>
        Goes(old(View()), mid) && DispatchDone(mid, View(), old(now))
        && if Expired(old(View())) then |mid.log| > |old(log)| && IsTimeout(old(View()), mid.log[|old(log)|])
           else mid == old(View())
      ensures !tripped ==> Turned(log, Wakeup(SomeReady, old(View())))
      ensures !tripped ==> forall m :: |old(log)| <= m < |log| ==> InTime(log[m], old(io).timed)
      ensures !Expired(old(View())) && NothingCalled(old(io).polls) ==> !tripped && View() == old(View())
      ensures !tripped ==> Flows(old(View()), View())
      ensures Orderly(old(View())) && CoveredFrom(old(io), 0) ==>
        (tripped <==> Stuck(io, shape)) && Size(View()) <= old(Size(View()))
    {
      hide Ok, Steps, Work, Goes, NextDeadline, DispatchDone, AtRest, Linked, InTime, StuckAt, NothingCalled, Flows,
        Serves, Orderly, TameRegs, CoveredFrom, Expired, IsTimeout, Tracks, Turned, Following;
      ghost var s := View();
      var completion := now;
      Overdue(isEvent, delay, elapsed);
      mid := View();
      if tripped {
        return;
      }
      FlowsOrderly(s, mid);
      GoesStatus(s, mid);
      Dispatch(completion);
      if tripped {
        return;
      }
      ServesFlows(mid, View());
      FlowsTrans(s, mid, View());
      NotStuck(View());
      GoesTrans(s, mid, View());
      RestInTime(s, mid, View());
      GoesStatus(s, mid);
      ReadyTurned(s, mid, View());
    }

    /** Line 341: the time limit is over. */
    method OnTimeLimit(isEvent: bool, delay: int, elapsed: int)
      requires !tripped && Ok(View()) && Linked() && AtRest(View()) && status.Running? && !walking && elapsed >= 0
      requires
        var (d, ev) := NextDeadline(delays.elems, io.timed);
        isEvent == ev && delay == PollDelay(d, now - elapsed)
      modifies this, delays, reg, reg.tree, buf, buf.data
      ensures buf.data == old(buf.data) || fresh(buf.data)
      ensures wakeups == old(wakeups)
      ensures !tripped ==> Ok(View()) && Linked() && AtRest(View()) && Goes(old(View()), View()) && !walking
      ensures !tripped ==> |log| > |old(log)| && IsTimeout(old(View()), log[|old(log)|])
      ensures !tripped ==> Turned(log, Wakeup(TimedOut, old(View()))) && Flows(old(View()), View())
      ensures Orderly(old(View())) && Over(old(View())) ==>
        (tripped <==> Stuck(io, shape)) && Size(View()) <= old(Size(View()))
    {
      hide Ok, Steps, Work, Goes, NextDeadline, EventCall, Linked, OnlyCancels, Following, AtRest, CalmScript, CalmTop,
        StuckAt, Flows, Serves, Orderly, Over, Passed, RbShape.InOrder, Tracks, IsTimeout, Turned;
      ghost var s := View();
      OverIff(s, delay, elapsed);
      if delay == -1 || elapsed < delay {
        // poll() may return 0 only when its time limit is over
        tripped := true;
        return;
      }
      NextDeadlineLeast(s);
      if Orderly(s) {
        OrderlyTop(s);
      }
      TimeoutFirst(isEvent, now);
      if !tripped {
        PassedSize(s, View(), if isEvent then Some(s.io.timed[0].item.key) else None);
        GoesStatus(s, View());
        TimeoutTurned(s, log);
        NotStuck(View());
      }
    }

    /** Lines 323-350.  `woke` is the state when poll() has returned, `mid` that in which dispatch begins.
        When the time limit is over, a timeout is delivered; when descriptors are ready, everything that
        was registered for them and that they call for is invoked, after a timeout exactly if a deadline has
        passed and is not that of a ready event; an error stops the service. */
    method PollOnce() returns (ready: PollResult, ghost woke: Snap, ghost mid: Snap)
      requires !tripped && Ok(View()) && Linked() && AtRest(View()) && status.Running? && !walking
      modifies this, delays, reg, reg.tree, buf, buf.data
      ensures buf.data == old(buf.data) || fresh(buf.data)
      ensures !tripped ==> Ok(View()) && Linked() && AtRest(View()) && Goes(old(View()), View())
      ensures wakeups == old(wakeups) + [Wakeup(ready, woke)] && (!tripped ==> !walking)
      ensures SameButRevents(old(io).polls, woke.io.polls) && woke == old(View()).(now := woke.now, io := woke.io)
      ensures woke.io == old(io).(polls := woke.io.polls) && (woke.io.polls == [] <==> old(io).polls == [])
      ensures !tripped && ready.TimedOut? ==> |log| > |old(log)| && IsTimeout(woke, log[|old(log)|])
      ensures !tripped ==> Turned(log, Wakeup(ready, woke))
      ensures !tripped && ready.SomeReady? ==>
        Goes(woke, mid) && DispatchDone(mid, View(), woke.now)
        && if Expired(woke) then |mid.log| > |old(log)| && IsTimeout(woke, mid.log[|old(log)|]) else mid == woke
      ensures !tripped && ready.SomeReady? ==> forall m :: |old(log)| <= m < |log| ==> InTime(log[m], woke.io.timed)
      ensures ready.SomeReady? && !Expired(woke) && NothingCalled(woke.io.polls) ==> !tripped && View() == woke
      ensures !tripped && ready.Failed? ==> status.Stopping? && log == old(log)
      ensures !tripped && Orderly(old(View())) ==> Orderly(View())
      ensures !tripped ==> Carried(old(View()), View(), [])
      ensures !tripped && !ready.Failed? ==> Effects(old(View()), View(), [])
      ensures Orderly(old(View())) && !Lapse(Wakeup(ready, woke)) ==>
        (tripped <==> Stuck(io, shape)) && Size(View()) <= old(Size(View()))
    {
      hide Ok, Steps, Work, Goes, NextDeadline, TopReady, DispatchDone, EventCall, Expired, SameButRevents, Linked,
        InTime, OnlyCancels, Following, AtRest, CalmScript, CalmTop, StuckAt, NothingCalled, Flows, Serves, Orderly,
        CoveredFrom, Over, Effects, Carried, Passed, RbShape.InOrder, Tracks, IsTimeout, Turned;
      ghost var s := View();
      var isEvent, delay, elapsed;
      ready, isEvent, delay, elapsed := Await();
      woke := View();
      mid := woke;
      RestSame(s, woke);
      OrderlyParts(s, woke);
      match ready
      case Interrupted =>
        // the revents of the last round would be dispatched again
        tripped := true;
      case Failed =>
        status := Stopping;
        StopGoes(woke);
        FailedTurned(woke);
        FailedCarried(s, View());
        GoesTrans(s, woke, View());
        RestSame(s, View());
        OrderlyParts(s, View());
        NotStuck(View());
      case TimedOut =>
        OnTimeLimit(isEvent, delay, elapsed);
        if !tripped {
          GoesTrans(s, woke, View());
          WokeFlows(s, woke, View());
          EffectsCarried(s, View(), []);
        }
      case SomeReady =>
        mid := OnReady(isEvent, delay, elapsed);
        if !tripped {
          GoesTrans(s, woke, View());
          WokeFlows(s, woke, View());
          EffectsCarried(s, View(), []);
        }
    }

    // ---------- stopping ----------

    /** Lines 113-117: one delayed handler is called with EIO_STOPPED. */
    method StopDelayed(i: nat)
      requires Active() && Ok(View()) && Linked() && status.Stopping? && i < |delays.elems| && !walking
      requires heldDelays == multiset(delays.elems[..i])
      modifies this, delays, reg, reg.tree, buf, buf.data
      ensures buf.data == old(buf.data) || fresh(buf.data)
      ensures !tripped && Ok(View()) && Linked() && !walking && wakeups == old(wakeups) && old(now) <= now
      ensures reg.tree.mem == old(reg.tree.mem)
      ensures
        View() == old(View()).(now := now, log := old(log) + [StopDelayCall(old(delays.elems)[i])],
                               heldDelays := multiset(old(delays.elems)[..i + 1]))
    {
      hide Ok, Steps, Work, Weight, StatusSteps, Linked, OnlyCancels, Following, CalmScript, Ran, HasTimed, Performs,
        NoCancels, Tally, Heard;
      ghost var s := View();
      StopDelayOk(s, i);
      var e := delays.elems[i];
      log := log + [RunDelay(e, EioStopped, 0, false)];
      heldDelays := heldDelays + multiset{e};
      assert View() == StopDelay(s, i);
      ghost var s1 := View();
      RunScript(e.item.hnd.script);
      StepsLog(s1, View());
    }

    /** Lines 109-124: the delayed handlers, in array order.  Nothing that they do makes the run trip. */
    method StopDelays()
      requires Active() && Ok(View()) && Linked() && AtRest(View()) && status.Stopping? && !walking
      modifies this, delays, reg, reg.tree, buf, buf.data
      ensures buf.data == old(buf.data) || fresh(buf.data)
      ensures !tripped && Ok(View()) && Linked() && !walking && wakeups == old(wakeups) && old(now) <= now
      ensures View() == old(View()).(now := now, log := old(log) + StopDelayCalls(old(delays.elems)), delays := [])
      ensures reg.tree.mem == old(reg.tree.mem)
    {
      hide Ok, Steps, Work, AtRest, Linked;
      RestHeld(View());
      ghost var s, d := View(), delays.elems;
      assert multiset(d[..0]) == multiset{} && log == log + StopDelayCalls(d)[..0];
      var i := 0;
      while i < |delays.elems|
        invariant buf.data == old(buf.data) || fresh(buf.data)
        invariant Active() && Ok(View()) && Linked() && !walking && wakeups == old(wakeups)
        invariant s.now <= now && reg.tree.mem == old(reg.tree.mem) && 0 <= i <= |d| == |delays.elems|
        invariant View() == s.(now := now, log := s.log + StopDelayCalls(d)[..i], heldDelays := multiset(d[..i]))
      {
        StopDelayed(i);
        LogNext(s.log, StopDelayCalls(d), i);
        i := i + 1;
      }
      assert d[..i] == d && StopDelayCalls(d)[..i] == StopDelayCalls(d);
      DelaysStopped(View());
      delays.elems := [];
      heldDelays := multiset{};
    }

    /** stop_handler for the event at position `i` of the walk.  Trips exactly if it schedules with a time limit,
        however that is answered. */
    method StopHandler(calls: seq<(Key, Handler)>, i: nat, at: int)
      requires Active() && Ok(View()) && Linked() && status.Stopping? && walking && i < |calls|
      requires multiset(calls) == multiset(io.regs.Items) && heldEvents == multiset(calls[..i])
        && TimersDue(io.timed, at)
      modifies this, delays, reg, reg.tree, buf, buf.data
      ensures buf.data == old(buf.data) || fresh(buf.data)
      ensures calls[i].0 in old(io).regs
      ensures tripped <==> HasTimed(calls[i].1.script)
      ensures !tripped ==> Ok(View()) && Linked() && walking && old(now) <= now
      ensures wakeups == old(wakeups)
      ensures
        View() == old(View()).(now := now, log := old(log) + [StopEventCall(old(io), calls[i].0, at)],
                               heldEvents := multiset(calls[..i + 1]))
    {
      hide Ok, Steps, Work, Weight, TimersDue, StopEventCall, StatusSteps, Linked, OnlyCancels, Following, CalmScript,
        Ran, HasTimed, Performs, NoCancels, Tally, Heard;
      ghost var s := View();
      StopEventOk(s, calls, i, at);
      log := log + [StopEventCall(io, calls[i].0, at)];
      heldEvents := heldEvents + multiset{calls[i]};
      assert View() == StopEvent(s, calls[i].0, at);
      ghost var s1 := View();
      RunScript(calls[i].1.script);
      if !tripped {
        StepsLog(s1, View());
      }
    }

    /** stop_async_ops, in the order of the tree.  Trips exactly if a registered handler schedules with a time
        limit. */
    method StopAsyncOps(at: int) returns (calls: seq<(Key, Handler)>)
      requires Active() && Ok(View()) && Linked() && status.Stopping? && heldEvents == multiset{}
      requires TimersDue(io.timed, at) && !walking
      modifies this, delays, reg, reg.tree, buf, buf.data
      ensures buf.data == old(buf.data) || fresh(buf.data)
      ensures tripped <==> TimedLeft(old(io).regs)
      ensures !tripped ==> Ok(View()) && Linked() && !walking && old(now) <= now
      ensures wakeups == old(wakeups) && io == old(io) && shape == old(shape) && status.Stopping?
      ensures multiset(calls) == multiset(old(io).regs.Items)
      ensures calls == StopWalk.Order(old(reg.tree.mem), old(shape))
      ensures StopWalk.InTreeOrder(old(reg.tree.mem), old(shape), calls)
      ensures !tripped ==>
        old(log) <= log && StopEventCalls(log[|old(log)|..], old(io), calls, at)
        && View() == old(View()).(now := now, log := log, heldEvents := multiset(old(io).regs.Items))
    {
      hide Ok, Steps, Work, TimersDue, StopEventCall, StopEventCalls, Linked, TimedLeft, TimedIn, HasTimed,
        StopWalk.Order,
        StopWalk.InTreeOrder;
      ghost var s := View();
      NoneStopped(log, io, at);
      calls := WalkTree();
      WalkTimed(io.regs, calls);
      walking := true;
      var i := 0;
      while i < |calls|
        invariant buf.data == old(buf.data) || fresh(buf.data)
        invariant Active() && Ok(View()) && Linked() && walking && wakeups == old(wakeups) && 0 <= i <= |calls|
        invariant s.log <= log && View() == s.(now := now, log := log, heldEvents := multiset(calls[..i]))
        invariant s.now <= now
        invariant |log| == |s.log| + i && StopEventCalls(log[|s.log|..], s.io, calls[..i], at)
        invariant !TimedIn(calls[..i])
      {
        TimedInNext(calls, i);
        StopHandler(calls, i, at);
        if tripped {
          return;
        }
        StopNext(s, log, calls, i, at);
        i := i + 1;
      }
      assert calls[..i] == calls;
      walking := false;
    }

    method WalkTree() returns (calls: seq<(Key, Handler)>)
      requires Linked()
      ensures multiset(calls) == multiset(io.regs.Items) && calls == StopWalk.Order(reg.tree.mem, shape)
      ensures StopWalk.InTreeOrder(reg.tree.mem, shape, calls)
    {
      hide StopWalk.InTreeOrder;
      calls := reg.Walk();
    }

    /** Lines 126-136: every registered handler is called, then everything is cleared. */
    method StopEvents() returns (calls: seq<(Key, Handler)>, at: int)
      requires Active() && Ok(View()) && Linked() && AtRest(View()) && status.Stopping? && !walking
      modifies this, delays, reg, reg.tree, buf, buf.data
      ensures buf.data == old(buf.data) || fresh(buf.data)
      ensures tripped <==> TimedLeft(old(io).regs)
      ensures tripped ==> io == old(io) && shape == old(shape) && status.Stopping?
      ensures multiset(calls) == multiset(old(io).regs.Items) && at >= old(now)
      ensures calls == StopWalk.Order(old(reg.tree.mem), old(shape))
      ensures StopWalk.InTreeOrder(old(reg.tree.mem), old(shape), calls)
      ensures !tripped ==> Ok(View()) && Linked() && !walking && at <= now
      ensures wakeups == old(wakeups)
      ensures !tripped ==>
        old(log) <= log && StopEventCalls(log[|old(log)|..], old(io), calls, at)
        && View() == old(View()).(now := now, log := log, io := Idle, shape := RbShape.Nil)
    {
      hide Ok, Steps, Work, TimersDue, Idle, AtRest, StopEventCalls, Linked, TimedLeft, StopWalk.Order,
        StopWalk.InTreeOrder;
      RestHeld(View());
      at := Clock();
      DueNowFact(View());
      calls := StopAsyncOps(at);
      if tripped {
        return;
      }
      ghost var s := View();
      EventsStopped(s);
      ClearAll();
    }

    /** Lines 134-136. */
    method ClearAll()
      requires Linked()
      modifies this`io, this`shape, this`heldEvents, reg, reg.tree
      ensures Linked() && View() == old(View()).(io := Idle, shape := RbShape.Nil, heldEvents := multiset{})
    {
      hide RegistryRep.Represents, Idle;
      reg.Clear();
      io, shape := reg.io, reg.shape;
      heldEvents := multiset{};
    }

    /** iosvc_prep_stop: the calls with EIO_STOPPED, first the delayed handlers, then the events. */
    method PrepStop() returns (calls: seq<(Key, Handler)>, at: int)
      requires Active() && Ok(View()) && Linked() && AtRest(View()) && status.Stopping? && !walking
      modifies this, delays, reg, reg.tree, buf, buf.data
      ensures buf.data == old(buf.data) || fresh(buf.data)
      ensures tripped <==> TimedLeft(old(io).regs)
      ensures tripped ==> io == old(io) && shape == old(shape)
      ensures multiset(calls) == multiset(old(io).regs.Items) && at >= old(now)
      ensures calls == StopWalk.Order(old(reg.tree.mem), old(shape))
      ensures StopWalk.InTreeOrder(old(reg.tree.mem), old(shape), calls)
      ensures !tripped ==> Ok(View()) && Linked() && AtRest(View()) && !walking && at <= now
      ensures wakeups == old(wakeups) && status.Stopping?
      ensures !tripped ==>
        var stopped := old(log) + StopDelayCalls(old(delays.elems));
        && stopped <= log && StopEventCalls(log[|stopped|..], old(io), calls, at)
        && sync == old(sync) && delays.elems == [] && io == Idle && shape == RbShape.Nil && posts == old(posts)
        && taken == old(taken) && regd == old(regd)
    {
      hide Ok, Linked, AtRest, StopEventCalls, StopDelayCalls, TimedLeft, StopWalk.Order,
        StopWalk.InTreeOrder;
      ghost var s := View();
      StopDelays();
      RestSame(s, View());
      calls, at := StopEvents();
      if tripped {
        return;
      }
      RestSame(s, View());
    }

    /** iosvc_run, followed for at most `rounds` rounds.  When all callbacks keep to their own descriptor, the
        run trips only where a node cannot be removed properly, where a stopping service calls a handler that
        schedules with a time limit, or where poll() has lapsed. */
    method Run(rounds: nat) returns (err: ErrCode, finished: bool)
      requires !tripped && Ok(View()) && Linked() && AtRest(View()) && !walking
      modifies this, delays, reg, reg.tree, buf, buf.data
      ensures buf.data == old(buf.data) || fresh(buf.data)
      ensures old(status) != Ready ==>
        finished && err == (if old(status) == Done then EioInvarg else EioInprogress) && View() == old(View())
          && !tripped
      ensures !tripped ==> Ok(View()) && Linked() && AtRest(View()) && !walking
      ensures finished ==> !tripped
      ensures finished && old(status) == Ready ==>
        AllDone(View()) && status == Done && (err == EioOk || err == EioStopped)
        && (err == EioStopped <==> StopSeen(log, |old(log)|, wakeups, |old(wakeups)|))
        && (err == EioOk ==> |old(log)| <= |log| && NoStops(log, |old(log)|))
      ensures !tripped && old(status) == Ready ==>
        && Paced(log, |old(log)|, wakeups, |old(wakeups)|) && StopsLast(log, |old(log)|)
        && AtMost(old(View()), View(), Made(log, |old(log)|))
        && (finished && err == EioOk ==> Complete(old(View()), View(), []))
      ensures forall i :: |old(wakeups)| <= i < |wakeups| ==> wakeups[i].woke.sync == []
      ensures finished && old(status) == Ready ==>
        reg.tree.mem == map[] && reg.tree.root == RbShape.NULL && reg.pollfds == [] && reg.timed == []
      ensures !finished && !tripped ==> |wakeups| == |old(wakeups)| + rounds
      ensures old(wakeups) <= wakeups && (Orderly(old(View())) && tripped ==> Blamed(View(), wakeups, |old(wakeups)|))
      ensures Orderly(old(View())) && old(Size(View())) < 3 && !LapseIn(wakeups, |old(wakeups)|) && tripped ==>
        status.Stopping? && TimedLeft(io.regs)
    {
      hide Ok, Steps, Work, Goes, AllDone, NoStops, Linked, AtRest, StopSeen, Orderly, Blamed, LapseIn, TimedLeft,
        RbShape.InOrder, Recorded, Paced, StopsLast, AtMost, Complete, Made;
      if status != Ready {
        return (if status == Done then EioInvarg else EioInprogress), true;
      }
      ghost var s := View();
      status := Running;
      StatusFree(s, Running);
      RestSame(s, View());
      OrderlyParts(s, View());
      ghost var s0 := View();
      finished := Rounds(rounds);
      SmallBlame(View(), wakeups, |old(wakeups)|);
      ghost var s1 := View();
      if !tripped {
        RecordedFacts(s0, s1, wakeups, |old(wakeups)|);
        RunCarried(s, s0, s1, s1.(status := Done));
        RunCarried(s, s0, s1, s1);
      }
      if !finished {
        return EioOk, false;
      }
      if status == Running {
        GoesFacts(s0, s1);
      }
      Emptied();
      err := if status == Running then EioOk else EioStopped;
      StatusFree(s1, Done);
      status := Done;
      RestSame(s1, View());
    }

    /** The loop of iosvc_run. */
    method Rounds(rounds: nat) returns (finished: bool)
      requires Active() && Ok(View()) && Linked() && AtRest(View()) && !walking && status.Running?
      modifies this, delays, reg, reg.tree, buf, buf.data
      ensures buf.data == old(buf.data) || fresh(buf.data)
      ensures !tripped ==> Active() && Ok(View()) && Linked() && AtRest(View()) && !walking
      ensures !tripped ==> Recorded(old(View()), View(), wakeups, |old(wakeups)|)
      ensures finished ==> !tripped && AllDone(View()) && (status.Running? ==> Goes(old(View()), View()))
      ensures forall i :: |old(wakeups)| <= i < |wakeups| ==> wakeups[i].woke.sync == []
      ensures Orderly(old(View())) && !LapseIn(wakeups, |old(wakeups)|) ==> Size(View()) <= old(Size(View()))
      ensures !finished && !tripped ==> |wakeups| == |old(wakeups)| + rounds
      ensures old(wakeups) <= wakeups && (Orderly(old(View())) && tripped ==> Blamed(View(), wakeups, |old(wakeups)|))
    {
      hide Ok, Steps, Work, Goes, AllDone, Linked, AtRest, Recorded, Orderly, Blamed;
      ghost var s0 := View();
      GoesRefl(s0);
      PollsAre();
      QueueIs();
      RecordedStarts(s0, wakeups);
      var left: nat := rounds;
      while reg.pollfds != [] || delays.elems != [] || !buf.Empty()
        invariant buf.data == old(buf.data) || fresh(buf.data)
        invariant buf.Valid() && (buf.Empty() <==> sync == [])
        invariant Active() && Ok(View()) && Linked() && AtRest(View()) && !walking && reg.pollfds == io.polls
        invariant Goes(s0, View()) && Recorded(s0, View(), wakeups, |old(wakeups)|)
        invariant left <= rounds && old(wakeups) <= wakeups && (Orderly(s0) ==> Orderly(View()))
        invariant forall i :: |old(wakeups)| <= i < |wakeups| ==> wakeups[i].woke.sync == []
        invariant Orderly(s0) && !LapseIn(wakeups, |old(wakeups)|) ==> Size(View()) <= Size(s0)
        invariant |wakeups| + left == |old(wakeups)| + rounds || (io.polls == [] && delays.elems == [] && sync == [])
        decreases left
      {
        if left == 0 {
          return false;
        }
        left := left - 1;
        ghost var w1 := wakeups;
        var done := Round(s0, |old(wakeups)|);
        LapseEarlier(w1, wakeups, |old(wakeups)|);
        if tripped {
          if Orderly(s0) {
            BlamedEarlier(View(), wakeups, |old(wakeups)|, |w1|);
          }
          return false;
        }
        PollsAre();
        QueueIs();
        if done {
          break;
        }
      }
      EmptyIsDone(View());
      return true;
    }

    lemma Emptied()
      requires Linked() && AllDone(View())
      ensures reg.tree.mem == map[] && reg.tree.root == RbShape.NULL && reg.pollfds == [] && reg.timed == []
    {
      hide RegistryRep.Represents, RanPosts, RanDelays, RanEvents;
      reg.NothingHeld();
    }

    /** One turn of the loop in iosvc_run, which was started in `s0`; `done` when it breaks out of the loop. */
    method Round(ghost s0: Snap, ghost from: nat) returns (done: bool)
      requires Active() && Ok(View()) && Linked() && AtRest(View()) && !walking
      requires Goes(s0, View()) && Recorded(s0, View(), wakeups, from)
      modifies this, delays, reg, reg.tree, buf, buf.data
      ensures buf.data == old(buf.data) || fresh(buf.data)
      ensures !tripped ==> Active() && Ok(View()) && Linked() && AtRest(View()) && !walking
      ensures !tripped ==> Recorded(s0, View(), wakeups, from) && (Orderly(old(View())) ==> Orderly(View()))
      ensures !tripped && (status.Running? || !done) ==> Goes(s0, View())
      ensures !tripped && done ==> io.polls == [] && delays.elems == [] && sync == []
      ensures old(wakeups) <= wakeups
      ensures forall i :: |old(wakeups)| <= i < |wakeups| ==> wakeups[i].woke.sync == []
      ensures !tripped && !done ==>
        |wakeups| == |old(wakeups)| + 1 || (io.polls == [] && delays.elems == [] && sync == [])
      ensures Orderly(old(View())) && tripped ==> Blamed(View(), wakeups, |old(wakeups)|)
      ensures Orderly(old(View())) && !LapseIn(wakeups, |old(wakeups)|) ==> Size(View()) <= old(Size(View()))
    {
      hide Ok, Steps, Work, Goes, Linked, AtRest, Flows, Effects, Carried, Orderly, PostsOf, Scripts, Runs, TamePosts,
        Blamed, Recorded, AllUnpolled, LapseIn, RbShape.InOrder;
      done := false;
      ghost var s1, w1 := View(), wakeups;
      if Orderly(s1) {
        OrderlyPosts(s1);
      }
      ghost var ran := RunSync();
      if tripped {
        return;
      }
      ghost var s2 := View();
      FlowsFacts(s1, s2);
      GoesStatus(s1, s2);
      RecordedSync(s0, s1, s2, w1, from);
      if status == Stopping {
        StopAll(s0, from);
        return true;
      }
      PollsAre();
      if reg.pollfds == [] && delays.elems == [] {
        return;
      }
      PollTurn(s0, from);
    }

    /** The part of a round that polls. */
    method PollTurn(ghost s0: Snap, ghost from: nat)
      requires !tripped && Ok(View()) && Linked() && AtRest(View()) && status.Running? && !walking && sync == []
      requires Goes(s0, View()) && Recorded(s0, View(), wakeups, from) && (io.polls != [] || delays.elems != [])
      modifies this, delays, reg, reg.tree, buf, buf.data
      ensures buf.data == old(buf.data) || fresh(buf.data)
      ensures !tripped ==> Active() && Ok(View()) && Linked() && AtRest(View()) && !walking
      ensures !tripped ==> Recorded(s0, View(), wakeups, from) && Goes(s0, View())
      ensures !tripped && Orderly(old(View())) ==> Orderly(View())
      ensures |wakeups| == |old(wakeups)| + 1 && old(wakeups) <= wakeups && wakeups[|old(wakeups)|].woke.sync == []
      ensures Orderly(old(View())) && tripped ==> Blamed(View(), wakeups, |old(wakeups)|)
      ensures Orderly(old(View())) && !LapseIn(wakeups, |old(wakeups)|) ==> Size(View()) <= old(Size(View()))
    {
      hide Ok, Steps, Work, Goes, Linked, AtRest, DispatchDone, InTime, IsTimeout, Expired, NothingCalled,
        SameButRevents, Effects, Carried, Turned, Orderly, Stuck, Lapse, LapseIn, Blamed, Recorded, RbShape.InOrder;
      ghost var s, w1 := View(), wakeups;
      ghost var woke, mid;
      var ready;
      ready, woke, mid := PollOnce();
      LapseNow(w1, Wakeup(ready, woke));
      if tripped {
        if Orderly(s) {
          BlamedNow(View(), w1, Wakeup(ready, woke));
        }
        return;
      }
      RecordedPoll(s0, s, View(), w1, from, Wakeup(ready, woke));
      GoesStatus(s, View());
    }

    /** The part of a round in which a stopping service calls all that is left. */
    method StopAll(ghost s0: Snap, ghost from: nat)
      requires Active() && Ok(View()) && Linked() && AtRest(View()) && status.Stopping? && !walking && sync == []
      requires Goes(s0, View()) && Recorded(s0, View(), wakeups, from)
      modifies this, delays, reg, reg.tree, buf, buf.data
      ensures buf.data == old(buf.data) || fresh(buf.data)
      ensures status.Stopping? && wakeups == old(wakeups)
      ensures !tripped ==> Active() && Ok(View()) && Linked() && AtRest(View()) && !walking
      ensures !tripped ==> Recorded(s0, View(), wakeups, from) && Orderly(View()) && Size(View()) == 0
      ensures !tripped ==> io.polls == [] && delays.elems == [] && sync == []
      ensures tripped ==> Blamed(View(), wakeups, |old(wakeups)|) && Size(View()) == old(Size(View()))
    {
      hide Ok, Steps, Work, Goes, Linked, AtRest, StopEventCalls, StopDelayCalls, Orderly, TimedLeft, Blamed, Recorded,
        StopWalk.Order, StopWalk.InTreeOrder, RbShape.InOrder;
      ghost var s := View();
      var calls, at := PrepStop();
      if tripped {
        BlamedStopping(View(), wakeups);
      } else {
        RecordedStop(s0, s, View(), wakeups, from, calls, at);
        NothingOrderly(View());
      }
    }
  }
}
