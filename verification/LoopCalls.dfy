/** Small facts about the state of the loop that its methods use. */
module LoopCalls {
  import opened IoTypes
  import opened DeadlineHeap
  import opened IoModel
  import opened Weights
  import opened LoopState
  import opened LoopRounds
  import RbShape
  import Registry
  import opened LoopDispatch

  lemma CreatedOk(s: Snap)
    requires s.sync == [] && s.delays == [] && s.io == Idle && s.now >= 0 && s.posts == [] && s.taken == multiset{}
    requires s.regd == multiset{} && s.log == [] && s.open == {} && s.running == 0
    requires s.heldDelays == multiset{} && s.heldEvents == multiset{}
    ensures Ok(s)
  {
    assert s.io.regs.Items == {};
  }

  lemma RegisteredTimer(io: IoState, k: Key, h: Handler)
    requires FindTimer(io.timed, k) == |io.timed|
    ensures k in Enqueue(io, k, h).regs && FindTimer(Enqueue(io, k, h).timed, k) == |Enqueue(io, k, h).timed|
  {
  }

  /** What Steps says about the parts that callers look at. */
  lemma StepsLog(a: Snap, b: Snap)
    requires Steps(a, b)
    ensures a.log <= b.log && a.removed <= b.removed && StatusSteps(a.status, b.status) && b.heldEvents == a.heldEvents
    ensures b.open == a.open && b.running == a.running && b.heldDelays == a.heldDelays && a.now <= b.now
  {
  }

  lemma FiredLoad(s: Snap, k: Key, c: Call)
    requires Ok(s) && k in s.io.regs && s.heldEvents == multiset{} && c.RunEvent? && c.hnd == s.io.regs[k]
    ensures HasPoll(s.io.polls, k.fd) && Work(Fired(s, k, c)) == Work(s) - Weight(c.hnd)
  {
    hide Work, Dequeue;
    FiredWork(s, k, c);
  }

  lemma WeightIs(h: Handler)
    ensures Weight(h) == 1 + ScriptWeight(h.script)
  {
  }

  lemma DelayedStarts(s: Snap, at: int, least: bool)
    requires Ok(s) && AtRest(s) && s.delays != [] && s.delays[0].deadline <= at && least
    ensures Ok(Begun(s, at, least)) && Begun(s, at, least).heldEvents == multiset{}
      && Begun(s, at, least).status == s.status
  {
    BegunOk(s, at, least);
  }

  lemma StepsTracks(a: Snap, b: Snap)
    requires Steps(a, b)
    ensures Tracks(a, b)
  {
  }

  lemma DelayedEnds(s: Snap, at: int, least: bool, s2: Snap)
    requires Ok(s) && AtRest(s) && s.delays != [] && s.delays[0].deadline <= at <= s.now && least
    requires Ok(s2) && Steps(Begun(s, at, least), s2)
    ensures s2.delays != [] && HeapOrdered(s2.delays) && Ok(Ended(s2)) && AtRest(Ended(s2)) && Goes(s, Ended(s2))
    ensures |s2.log| > |s.log| && s2.log[|s.log|] == RunDelay(s.delays[0], EioOk, at, least)
    ensures multiset(PopTop(s2.delays)) == multiset(s.delays) - multiset{s.delays[0]} + (s2.taken - s.taken)
  {
    hide Ok, Steps, Work, Goes, HeapOrdered, PopTop;
    var s1 := Begun(s, at, least);
    BegunOk(s, at, least);
    StepsLog(s1, s2);
    StepsTop(s1, s2);
    StepsGoes(s1, s2);
    DelaysHeap(s2);
    EndedOk(s2);
    EndedHeap(s, s2);
    GoesTrans(s, s1, s2);
    GoesTrans(s, s2, Ended(s2));
  }

  lemma RestHeld(s: Snap)
    requires AtRest(s)
    ensures s.heldDelays == multiset{} && s.heldEvents == multiset{}
  {
  }

  lemma PolledGoes(s: Snap, t: int, s2: Snap, s3: Snap)
    requires Ok(s) && s.now <= t && Goes(s.(now := t), s2) && Steps(s2, s3)
    ensures Goes(s, s3)
  {
    hide Ok, Steps, Goes, Work;
    TickOk(s, t);
    StepsGoes(s, s.(now := t));
    StepsGoes(s2, s3);
    GoesTrans(s, s.(now := t), s2);
    GoesTrans(s, s2, s3);
  }

  lemma GoesStatus(a: Snap, b: Snap)
    requires Goes(a, b)
    ensures StatusSteps(a.status, b.status) && a.log <= b.log
  {
  }

  lemma FrontStarts(s: Snap)
    requires Ok(s) && AtRest(s) && s.sync != []
    ensures Ok(Started(s)) && Started(s).heldEvents == multiset{} && Started(s).status == s.status
  {
    StartedOk(s);
  }

  lemma FrontEnds(s: Snap, s2: Snap)
    requires Ok(s) && AtRest(s) && s.sync != [] && Steps(Started(s), s2) && Ok(s2)
    requires Work(s2) <= Work(Started(s)) + ScriptWeight(s.sync[0].script)
    ensures s2.sync != [] && Ok(Popped(s2)) && AtRest(Popped(s2)) && Goes(s, Popped(s2)) && Work(Popped(s2)) < Work(s)
    ensures |s2.log| > |s.log| && s2.log[|s.log|] == RunPost(s.sync[0])
  {
    hide Ok, Steps, Work, Goes, Weight;
    StartedOk(s);
    WeightIs(s.sync[0]);
    StepsLog(Started(s), s2);
    StepsGoes(Started(s), s2);
    PoppedOk(s2);
    GoesTrans(s, Started(s), s2);
    GoesTrans(s, s2, Popped(s2));
  }

  lemma OpenWork(s: Snap, open: set<int>)
    ensures Work(s.(open := open)) == Work(s)
  {
  }

  /** The call that iosvc_dequeue's results make up is the one described by the state. */
  lemma CallBuilt(io: IoState, k: Key, code: ErrCode, at: int, revents: Flags, least: bool, remaining: Option<int>)
    requires k in io.regs && remaining == Registry.RemainingOf(io, k, at)
    ensures
      EventCall(io, k, code, at, revents, least)
      == RunEvent(k, io.regs[k], code, TimerFor(io, k),
                  if code == EioTimeout && remaining.Some? then Some(0) else remaining, at, revents, least)
  {
  }

  lemma OpenOne(s: Snap, fd: int)
    requires Ok(s) && AtRest(s)
    ensures Ok(s.(open := {fd})) && s.open == {} && s.(open := {fd}).(open := {}) == s && s.heldEvents == multiset{}
  {
  }

  lemma StopGoes(s: Snap)
    requires Ok(s) && s.status.Running?
    ensures Ok(s.(status := Stopping)) && Goes(s, s.(status := Stopping))
  {
  }

  lemma StatusFree(s: Snap, status: Status)
    requires Ok(s)
    ensures Ok(s.(status := status)) && (AllDone(s) ==> AllDone(s.(status := status)))
  {
  }

  lemma DueNowFact(s: Snap)
    requires Ok(s)
    ensures TimersDue(s.io.timed, s.now)
  {
  }

  lemma GoesFacts(a: Snap, b: Snap)
    requires Goes(a, b)
    ensures |a.log| <= |b.log| && NoStops(b.log, |a.log|)
  {
  }

  lemma ClockPositive(s: Snap)
    requires Ok(s)
    ensures s.now >= 0
  {
  }

  lemma StepsTop(a: Snap, b: Snap)
    requires Steps(a, b) && a.delays != [] && a.delays[0].deadline <= a.now
    ensures b.delays != [] && b.delays[0] == a.delays[0] && DelaysGrow(a, b)
  {
  }

  lemma CancelSteps(s: Snap, s2: Snap, s3: Snap)
    requires Steps(s.(open := s2.open), s2) && Steps(s2, s3.(open := s2.open)) && s3.open == s.open
    ensures Steps(s, s3) && s2.log <= s3.log
  {
    hide Steps;
    StepsLog(s2, s3.(open := s2.open));
    StepsTrans(s.(open := s2.open), s2, s3.(open := s2.open));
    StepsReopen(s.(open := s2.open), s3.(open := s2.open), s.open);
    assert s.(open := s2.open).(open := s.open) == s && s3.(open := s2.open).(open := s.open) == s3;
  }

  lemma RegsPolled(s: Snap, k: Key)
    requires Ok(s)
    ensures k in s.io.regs ==> HasPoll(s.io.polls, k.fd)
  {
  }

  /** Without removals the descriptor keeps its poll entry. */
  lemma StillThere(a: Snap, b: Snap, fd: int)
    requires Steps(a, b) && HasPoll(a.io.polls, fd) && |b.removed| == |a.removed|
    ensures HasPoll(b.io.polls, fd)
  {
  }

  lemma IdleStep(s: Snap, w: nat)
    ensures Steps(s, s) && Quiet(s, s) && Work(s) <= Work(s) + w && forall script :: OnlyCancels(s.log, |s.log|, script)
  {
  }

  /** Calls and scripts that were calm stay so as long as nothing is removed. */
  lemma CalmLater(a: Snap, b: Snap, script: seq<Action>, walking: bool)
    requires Steps(a, b) && |b.removed| == |a.removed| && CalmScript(script, walking, a.io.polls)
    ensures CalmScript(script, walking, b.io.polls)
  {
  }

  lemma CalmIs(a: Action, walking: bool, polls: seq<PollFd>)
    requires Calm(a, walking, polls)
    ensures !a.Cancel? && (a.Sched? ==> HasPoll(polls, a.fd))
    ensures a.SchedTimeout? ==> !walking && a.ms >= 0 && HasPoll(polls, a.fd)
  {
  }

  lemma CancelsMore(l1: seq<Call>, l2: seq<Call>, from: nat, script: seq<Action>, a: Action)
    requires from <= |l1| && l1 <= l2 && a in script
    requires OnlyCancels(l1, from, script) && OnlyCancels(l2, |l1|, [a])
    ensures OnlyCancels(l2, from, script)
  {
  }

  lemma CancelsFrom(log: seq<Call>, i: nat, k: Key)
    requires Following(log, i) && log[i].RunEvent? && log[i].status == EioCancelled && log[i].key == k
    ensures OnlyCancels(log, i, [Cancel(k.fd, k.wt)])
  {
  }

  /** What a callback logs when it is started with `log` ending in its own invocation. */
  lemma CancelsFollow(l1: seq<Call>, l2: seq<Call>, script: seq<Action>)
    requires l1 <= l2 && |l1| > 0 && OnlyCancels(l2, |l1|, script) && script == ScriptOf(l1[|l1| - 1])
    ensures Following(l2, |l1| - 1)
  {
  }

  /** Nodes keep their addresses as long as their descriptors are not removed. */
  lemma NodeStays(a: Snap, b: Snap, n: RbShape.Id)
    requires Steps(a, b) && n in RbShape.InOrder(a.shape) && n.fd !in b.removed[|a.removed|..]
    ensures n in RbShape.InOrder(b.shape)
  {
  }

  lemma PostStep(s: Snap, hnd: Option<Handler>, err: ErrCode)
    requires Ok(s) && err == PostResult(s.status, hnd)
    ensures
      var s' := if err == EioOk then Posted(s, hnd.value) else s;
      Ok(s') && Steps(s, s') && Quiet(s, s') && Work(s') <= Work(s) + ActionWeight(Post(hnd))
  {
    hide Ok, Steps, Work;
    StepsRefl(s);
    if err == EioOk {
      PostedOk(s, hnd.value);
      PostedWork(s, hnd.value);
    }
  }

  lemma SchedStep(s: Snap, fd: int, wt: Option<WaitType>, hnd: Option<Handler>, err: ErrCode, w: RbShape.Shape)
    requires Ok(s) && err == EnqueueResult(s.status, s.io.regs, fd, wt, hnd) && TreeGrows(s, fd, w)
    ensures
      var s' := if err == EioOk then Registered(s, Key(fd, wt.value), hnd.value, w) else s;
      Ok(s') && Steps(s, s') && Quiet(s, s') && Work(s') <= Work(s) + ActionWeight(Sched(fd, wt, hnd))
  {
    hide Ok, Steps, Work, Enqueue;
    StepsRefl(s);
    if err == EioOk {
      RegisteredStep(s, Key(fd, wt.value), hnd.value, w);
    }
  }

  lemma DelayStep(s: Snap, t: int, hnd: Option<Handler>, ms: int, err: ErrCode)
    requires Ok(s) && s.now <= t && err == PostDelayResult(s.status, hnd, ms)
    ensures
      var s1 := s.(now := t);
      var s2 := if err == EioOk then Entered(s1, Entry(t + ms, Delayed(hnd.value, ms))) else s1;
      Ok(s2) && Steps(s, s2) && Quiet(s, s2) && Work(s2) <= Work(s) + ActionWeight(PostDelay(hnd, ms))
  {
    hide Ok, Steps, Sum, Push;
    TickOk(s, t);
    if err == EioOk {
      var s1, e := s.(now := t), Entry(t + ms, Delayed(hnd.value, ms));
      EnteredOk(s1, e);
      EnteredLoad(s1, e);
      StepsTrans(s, s1, Entered(s1, e));
    }
  }

  lemma EnteredLoad(s: Snap, e: Entry<Delayed>)
    requires Ok(s) && e.item.ms >= 0 && e.deadline == s.now + e.item.ms
    ensures Work(Entered(s, e)) == Work(s) + Weight(e.item.hnd)
  {
    hide Sum, Push;
    EnteredDelays(s.delays, e, s.now);
    EnteredWork(s, e);
  }

  lemma RegisteredStep(s: Snap, k: Key, h: Handler, w: RbShape.Shape)
    requires Ok(s) && k !in s.io.regs && TreeGrows(s, k.fd, w)
    ensures Ok(Registered(s, k, h, w)) && Steps(s, Registered(s, k, h, w))
    ensures Work(Registered(s, k, h, w)) == Work(s) + Weight(h)
  {
    hide Sum, Steps, Enqueue, IoInv, TreeGrows;
    RegisteredOk(s, k, h, w);
    RegisteredWork(s, k, h, w);
  }

  /** The state after an accepted iosvc_sched_timeout at the clock reading `t`. */
  function Timed(s: Snap, t: int, k: Key, h: Handler, ms: int, w: RbShape.Shape): Snap {
    WithTimer(Registered(s.(now := t), k, h, w), k, t, ms)
  }

  lemma TimedIs(s: Snap, t: int, k: Key, h: Handler, ms: int, w: RbShape.Shape)
    ensures
      Timed(s, t, k, h, ms, w)
      == s.(now := t, io := AddTimer(Enqueue(s.io, k, h), k, t, ms), regd := s.regd + multiset{(k, h)}, shape := w)
  {
  }

  lemma TimeoutStep(s: Snap, t: int, fd: int, wt: Option<WaitType>, hnd: Option<Handler>, ms: int, err: ErrCode,
      w: RbShape.Shape)
    requires Ok(s) && s.now <= t && err == EnqueueResult(s.status, s.io.regs, fd, wt, hnd)
      && (err == EioOk ==> t + ms >= 0)
    requires TreeGrows(s, fd, w)
    ensures
      var s2 := if err == EioOk then Timed(s, t, Key(fd, wt.value), hnd.value, ms, w) else s.(now := t);
      Ok(s2) && Steps(s, s2) && Quiet(s, s2) && Work(s2) <= Work(s) + ActionWeight(SchedTimeout(fd, wt, hnd, ms))
  {
    hide Ok, Steps, Work, Enqueue, AddTimer, FindTimer;
    var s1 := s.(now := t);
    TickOk(s, t);
    if err == EioOk {
      var k, h := Key(fd, wt.value), hnd.value;
      RegisteredStep(s1, k, h, w);
      RegisteredOk(s1, k, h, w);
      RegisteredTimer(s1.io, k, h);
      var s2 := Registered(s1, k, h, w);
      WithTimerOk(s2, k, t, ms);
      StepsTrans(s1, s2, WithTimer(s2, k, t, ms));
      StepsTrans(s, s1, WithTimer(s2, k, t, ms));
    }
  }

  lemma StopStep(s: Snap)
    requires Ok(s)
    ensures
      var s' := s.(status := if s.status.Running? then Stopping else s.status);
      Ok(s') && Steps(s, s') && Quiet(s, s') && Work(s') == Work(s)
  {
    Unchanged(s);
  }

  // ---------- registering ----------

  lemma Refused(s: Snap, fd: int)
    ensures TreeGrows(s, fd, s.shape)
  {
  }

  lemma Accepted(s: Snap, k: Key, h: Handler, w: RbShape.Shape)
    requires Ok(s) && k !in s.io.regs && Registry.KeepsNodes(s.shape, w, None)
      && (HasPoll(s.io.polls, k.fd) ==> w == s.shape)
    ensures TreeGrows(s, k.fd, w) && Ok(Registered(s, k, h, w))
  {
    hide Ok, Registry.KeepsNodes;
    RegisteredOk(s, k, h, w);
  }

  lemma AcceptedTimed(s: Snap, t: int, k: Key, h: Handler, ms: int, w: RbShape.Shape)
    requires Ok(s) && s.now <= t && t + ms >= 0 && k !in s.io.regs
    requires Registry.KeepsNodes(s.shape, w, None) && (HasPoll(s.io.polls, k.fd) ==> w == s.shape)
    ensures TreeGrows(s, k.fd, w) && Ok(Timed(s, t, k, h, ms, w))
  {
    hide Ok, Steps, Work, Enqueue, AddTimer, FindTimer, Registry.KeepsNodes;
    TickOk(s, t);
    RegisteredOk(s.(now := t), k, h, w);
    RegisteredTimer(s.io, k, h);
    WithTimerOk(Registered(s.(now := t), k, h, w), k, t, ms);
  }

  lemma ResultOk(status: Status, regs: map<Key, Handler>, fd: int, wt: Option<WaitType>, hnd: Option<Handler>)
    requires EnqueueResult(status, regs, fd, wt, hnd) == EioOk
    ensures wt.Some? && hnd.Some? && Key(fd, wt.value) !in regs
  {
  }

  /** On a descriptor that has an entry, scheduling leaves the tree alone. */
  lemma GrowsNot(s: Snap, fd: int, w: RbShape.Shape)
    requires TreeGrows(s, fd, w)
    ensures HasPoll(s.io.polls, fd) ==> w == s.shape
  {
  }

  // ---------- invoking ----------

  lemma FireFacts(s: Snap, k: Key, c: Call, code: ErrCode, at: int, revents: Flags, least: bool)
    requires Ok(s) && k in s.io.regs && k.fd in s.open && s.heldEvents == multiset{} && code != EioStopped
    requires c == EventCall(s.io, k, code, at, revents, least) && CallOk(c)
    ensures c.RunEvent? && c.key == k && c.hnd == s.io.regs[k]
    ensures HasPoll(s.io.polls, k.fd) && Ok(Fired(s, k, c)) && Steps(s, Fired(s, k, c))
    ensures Work(Fired(s, k, c)) == Work(s) - 1 - ScriptWeight(s.io.regs[k].script)
    ensures forall script, walking :: CalmScript(script, walking, s.io.polls) ==>
              CalmScript(script, walking, Fired(s, k, c).io.polls)
  {
    hide Ok, Steps, Work, CallOk, HasPoll, Dequeue, CalmScript;
    FiredOk(s, k, c);
    FiredSteps(s, k, c);
    FiredLoad(s, k, c);
    WeightIs(s.io.regs[k]);
    forall script, walking | CalmScript(script, walking, s.io.polls)
      ensures CalmScript(script, walking, Fired(s, k, c).io.polls)
    {
      CalmLater(s, Fired(s, k, c), script, walking);
    }
  }

  lemma CancelledCall(io: IoState, k: Key)
    requires k in io.regs
    ensures var c := EventCall(io, k, EioCancelled, 0, {}, false); c.RunEvent? && c.status == EioCancelled && c.key == k
  {
  }

  lemma CalmNow(s: Snap, s1: Snap, script: seq<Action>, walking: bool, i: nat)
    requires Steps(s, s1) && s1.removed == s.removed && CalmScript(script, walking, s.io.polls) && i < |script|
    ensures Calm(script[i], walking, s1.io.polls)
  {
    hide Steps, Calm;
    CalmLater(s, s1, script, walking);
  }

  /** Serving a timed-out descriptor, from opening it to closing it. */
  lemma TimeoutServed(s: Snap, s2: Snap, s3: Snap)
    requires AtRest(s) && Steps(s.(open := s2.open), s2) && Steps(s2, s3.(open := s2.open)) && s3.open == {}
    ensures Goes(s, s3) && Tracks(s, s3) && AtRest(s3) && s2.log <= s3.log
  {
    hide Tracks;
    TracksTrans(s.(open := s2.open), s2, s3.(open := s2.open));
    TracksOpen(s, s3, s2.open);
  }

  lemma TracksOpen(a: Snap, b: Snap, open: set<int>)
    ensures Tracks(a.(open := open), b.(open := open)) ==> Tracks(a, b)
  {
  }

  // ---------- dispatch ----------

  lemma StageStarts(log: seq<Call>, p: PollFd, at: int)
    ensures Stage(log, |log|, p, at, {})
  {
  }

  /** One handler of the entry `p` has been invoked between `s1` and `s2`. */
  lemma AnswerStaged(s0: Snap, s1: Snap, s2: Snap, p: PollFd, at: int, done: set<WaitType>, wt: WaitType, code: ErrCode)
    requires Steps(s0, s1) && s1.log <= s2.log && |s1.log| < |s2.log| && wt !in done
      && Stage(s1.log, |s0.log|, p, at, done)
    requires code == CodeFor(p) && Key(p.fd, wt) in s1.io.regs && Following(s2.log, |s1.log|)
    requires forall first :: first in done ==> InTurn(code, first, wt)
    requires s2.log[|s1.log|] == EventCall(s1.io, Key(p.fd, wt), code, at, p.revents, false)
    ensures Due(s0.io.regs, |s0.log|, s2.log, Key(p.fd, wt), code) && Stage(s2.log, |s0.log|, p, at, done + {wt})
  {
    hide Steps, Due, Stage, Following;
    StepsAccounted(s0, s1);
    StageMore(s1.log, s2.log, |s0.log|, p, at, done, wt);
    AnsweredDue(s0.io.regs, |s0.log|, s1.io.regs, s1.log, s2.log, p, at, done, Key(p.fd, wt), code);
  }

  lemma StepsAccounted(s0: Snap, s1: Snap)
    requires Steps(s0, s1)
    ensures s0.log <= s1.log && Accounted(s0.io.regs, |s0.log|, s1.io.regs, s1.log)
  {
  }

  /** Three turns settle an invalid entry, if no turn undoes another. */
  lemma TurnsDue(s0: Snap, l1: seq<Call>, l2: seq<Call>, l3: seq<Call>, p: PollFd, at: int)
    requires PollNval in p.revents && l1 <= l2 <= l3
    requires Due(s0.io.regs, |s0.log|, l1, Key(p.fd, WaitRead), EioInvarg)
    requires Due(s0.io.regs, |s0.log|, l2, Key(p.fd, WaitWrite), EioInvarg)
    requires Due(s0.io.regs, |s0.log|, l3, Key(p.fd, WaitException), EioInvarg)
    ensures Settled(s0.io.regs, |s0.log|, l3, p)
  {
    hide Due;
    DueLater(s0.io.regs, |s0.log|, l1, l3, Key(p.fd, WaitRead), EioInvarg);
    DueLater(s0.io.regs, |s0.log|, l2, l3, Key(p.fd, WaitWrite), EioInvarg);
    SettledBy(s0.io.regs, |s0.log|, l3, p);
  }

  lemma TypesDue(s0: Snap, l1: seq<Call>, l2: seq<Call>, l3: seq<Call>, p: PollFd)
    requires PollNval !in p.revents && l1 <= l2 <= l3
    requires Fires(p.revents, WaitException) ==> Due(s0.io.regs, |s0.log|, l1, Key(p.fd, WaitException), EioOk)
    requires Fires(p.revents, WaitRead) ==> Due(s0.io.regs, |s0.log|, l2, Key(p.fd, WaitRead), EioOk)
    requires Fires(p.revents, WaitWrite) ==> Due(s0.io.regs, |s0.log|, l3, Key(p.fd, WaitWrite), EioOk)
    ensures Settled(s0.io.regs, |s0.log|, l3, p)
  {
    hide Due, Fires;
    if Fires(p.revents, WaitException) {
      DueLater(s0.io.regs, |s0.log|, l1, l3, Key(p.fd, WaitException), EioOk);
    }
    if Fires(p.revents, WaitRead) {
      DueLater(s0.io.regs, |s0.log|, l2, l3, Key(p.fd, WaitRead), EioOk);
    }
    SettledBy(s0.io.regs, |s0.log|, l3, p);
  }

  lemma CalledForReady(p: PollFd)
    requires PollNval !in p.revents
    ensures forall wt :: CalledFor(p, wt) <==> Fires(p.revents, wt)
  {
  }

  /** The captured link is good as long as there is no new entry. */
  lemma AnsweredTree(s: Snap, s1: Snap, i: nat, at: int)
    requires i < |s.io.polls| && Answered(s, s1, i, at)
    ensures Ok(s1) && s1.open == {s.io.polls[i].fd}
    ensures |s1.io.polls| == |s.io.polls| ==> s1.shape == s.shape
  {
    hide Ok, Work, Settled, Stage, Accounted, PollsKept, NodesKept;
  }

  lemma NoneCalled(polls: seq<PollFd>, i: nat)
    requires NothingCalled(polls) && i < |polls|
    ensures forall wt :: !CalledFor(polls[i], wt)
  {
  }

  lemma ExaminedFacts(s1: Snap, s2: Snap, i: nat, next: nat, at: int)
    requires i < |s1.io.polls| && Examined(s1, s2, i, next, at)
    ensures Ok(s2) && AtRest(s2) && Goes(s1, s2) && next <= |s2.io.polls|
  {
  }

  // ---------- remaining times ----------

  lemma FirstInTime(s: Snap, s1: Snap)
    requires Ok(s) && Ok(s1) && s.log <= s1.log && |s1.log| > |s.log| && TimedOutCall(s1.log[|s.log|])
    requires Following(s1.log, |s.log|)
    ensures forall m :: |s.log| <= m < |s1.log| ==> InTime(s1.log[m], s.io.timed)
  {
    hide InTime, Conserved, IoInv, CallOk;
    forall m | |s.log| <= m < |s1.log|
      ensures InTime(s1.log[m], s.io.timed)
    {
      assert CallOk(s1.log[m]);
      PendingInTime(s1.log[m], s.io.timed, s.now);
    }
  }

  lemma RestInTime(s: Snap, mid: Snap, s1: Snap)
    requires Ok(s) && Ok(s1) && DispatchDone(mid, s1, s.now) && s.log <= mid.log
    requires forall m :: |s.log| <= m < |mid.log| ==> InTime(mid.log[m], s.io.timed)
    ensures forall m :: |s.log| <= m < |s1.log| ==> InTime(s1.log[m], s.io.timed)
  {
    hide InTime, Conserved, IoInv, CallOk, Settled;
    forall m | |s.log| <= m < |s1.log|
      ensures InTime(s1.log[m], s.io.timed)
    {
      if m < |mid.log| {
        assert s1.log[m] == mid.log[m];
      } else {
        assert CallOk(s1.log[m]);
        PendingInTime(s1.log[m], s.io.timed, s.now);
      }
    }
  }

  // ---------- stopping ----------

  lemma RestSame(s: Snap, s1: Snap)
    requires AtRest(s) && s1.open == s.open && s1.running == s.running
    requires s1.heldDelays == s.heldDelays && s1.heldEvents == s.heldEvents
    ensures AtRest(s1)
  {
  }

  lemma LogNext(log: seq<Call>, calls: seq<Call>, i: nat)
    requires i < |calls|
    ensures (log + calls[..i]) + [calls[i]] == log + calls[..i + 1]
  {
  }

  lemma NoneStopped(log: seq<Call>, io: IoState, at: int)
    ensures StopEventCalls(log[|log|..], io, [], at)
  {
  }

  lemma StopNext(s: Snap, log: seq<Call>, calls: seq<(Key, Handler)>, i: nat, at: int)
    requires i < |calls| && |log| == |s.log| + i + 1 && s.log <= log && calls[i].0 in s.io.regs
    requires StopEventCalls(log[..|log| - 1][|s.log|..], s.io, calls[..i], at)
    requires log[|log| - 1] == StopEventCall(s.io, calls[i].0, at)
    ensures StopEventCalls(log[|s.log|..], s.io, calls[..i + 1], at)
  {
  }
}
