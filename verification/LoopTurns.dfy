/** Timeouts and dispatch with callbacks that keep to their own descriptor: a run then stays within the hypotheses
    until a node is to be removed whose place would lose its parent (src/io_service.c). */
module LoopTurns {
  import opened IoTypes
  import opened DeadlineHeap
  import opened IoModel
  import opened LoopState
  import opened LoopRounds
  import opened LoopDispatch
  import opened LoopCalls
  import opened LoopEffects
  import opened LoopScripts
  import opened LoopTame
  import RbShape
  import RbTrees
  import RbExtraction
  import Registry

  // ---------- where a run gets stuck ----------

  /** Extracting the node for `fd` would lose the parent of its place. */
  ghost predicate LosesAt(shape: RbShape.Shape, fd: int) {
    RbExtraction.LosesParent(RbTrees.ProbeTo(RbShape.Top, shape, fd).1)
  }

  /** Nothing is registered for `fd` any more, and its node cannot be removed properly. */
  ghost predicate StuckAt(io: IoState, shape: RbShape.Shape, fd: int) {
    HasPoll(io.polls, fd) && io.polls[FindPoll(io.polls, fd)].events == {} && LosesAt(shape, fd)
  }

  ghost predicate Stuck(io: IoState, shape: RbShape.Shape) { exists fd :: StuckAt(io, shape, fd) }

  lemma NotStuck(s: Snap)
    requires Ok(s) && AtRest(s)
    ensures !Stuck(s.io, s.shape)
  {
    forall fd
      ensures !StuckAt(s.io, s.shape, fd)
    {
      HasPollIff(s.io.polls, fd);
    }
  }

  /** How many descriptors have a node. */
  ghost function Size(s: Snap): nat { |RbShape.InOrder(s.shape)| }

  /** Only services with at least three descriptors can get there. */
  lemma StuckNeedsThree(s: Snap)
    requires Stuck(s.io, s.shape)
    ensures Size(s) >= 3
  {
    var fd :| StuckAt(s.io, s.shape, fd);
    FoundInside(RbShape.Top, s.shape, fd);
    var t := RbTrees.ProbeTo(RbShape.Top, s.shape, fd).1;
    assert t.left.Node? && t.right.Node?;
  }

  lemma {:induction false} FoundInside(c: RbShape.Ctx, t: RbShape.Shape, fd: int)
    ensures |RbShape.InOrder(RbTrees.ProbeTo(c, t, fd).1)| <= |RbShape.InOrder(t)|
    decreases t
  {
    if t.Node? && t.n.fd != fd {
      var d := if fd > t.n.fd then RbShape.Right else RbShape.Left;
      var up := RbShape.Up(d, t.n, t.red, RbShape.Sub(t, RbShape.Flip(d)), c);
      FoundInside(up, RbShape.Sub(t, d), fd);
    }
  }

  // ---------- timeouts ----------

  /** No entry with revents comes in. */
  ghost predicate Reports(polls: seq<PollFd>, polls': seq<PollFd>) {
    forall p :: Ahead(polls', 0, p) && p.revents != {} ==> Ahead(polls, 0, p)
  }

  /** Nothing new is reported, there are no more nodes, and nothing but `but` is gone. */
  ghost predicate Passed(a: Snap, b: Snap, but: Option<Key>) {
    Reports(a.io.polls, b.io.polls) && Size(b) <= Size(a)
    && forall k :: k in a.io.regs && Some(k) != but ==> k in b.io.regs
  }

  lemma PassedSize(a: Snap, b: Snap, but: Option<Key>)
    ensures Passed(a, b, but) ==> Size(b) <= Size(a)
  {
  }

  /** Closing a descriptor, whether or not it is removed. */
  ghost predicate Shut(a: Snap, b: Snap) {
    Alike(a, b) && b.sync == a.sync && b.delays == a.delays && Reports(a.io.polls, b.io.polls)
    && Size(b) <= Size(a)
  }

  lemma ShutRefl(s: Snap)
    ensures Shut(s, s)
  {
  }

  lemma FinishShuts(s: Snap, fd: int, w: RbShape.Shape, open: set<int>)
    requires HasPoll(s.io.polls, fd)
    ensures Shut(s, s.(open := open))
    ensures Registry.KeepsNodes(s.shape, w, Some(fd)) ==> Shut(s, Cleaned(s, fd, w).(open := open))
  {
    var polls, polls' := s.io.polls, Cleanup(s.io, fd).polls;
    var i, n := FindPoll(polls, fd), |polls| - 1;
    forall p | Ahead(polls', 0, p)
      ensures Ahead(polls, 0, p)
    {
      var j :| 0 <= j < |polls'| && polls'[j].fd == p.fd && polls'[j].revents == p.revents;
      assert polls'[j] == polls[if j == i then n else j];
    }
  }

  lemma ClearedShuts(s: Snap, i: nat)
    requires i < |s.io.polls|
    ensures Shut(s, s.(io := Cleared(s.io, i)))
  {
    var polls, polls' := s.io.polls, Cleared(s.io, i).polls;
    forall p | Ahead(polls', 0, p) && p.revents != {}
      ensures Ahead(polls, 0, p)
    {
      var j :| 0 <= j < |polls'| && polls'[j].fd == p.fd && polls'[j].revents == p.revents;
      assert polls'[j] == polls[j];
    }
  }

  lemma StepsReport(a: Snap, b: Snap)
    requires Steps(a, b) && b.removed == a.removed
    ensures Reports(a.io.polls, b.io.polls)
  {
    AheadCallbacks(a.io.polls, b.io.polls, 0);
  }

  /** A timeout has been delivered by the call `c`. */
  ghost predicate Delivered(a: Snap, b: Snap, c: Call) {
    && AtRest(b) && Goes(a, b) && Tracks(a, b) && |b.log| > |a.log| && b.log[|a.log|] == c && Following(b.log, |a.log|)
  }

  /** The descriptor of a timed-out event, from opening it to closing it. */
  lemma TimeoutServes(s: Snap, s1: Snap, s2: Snap, s3: Snap, k: Key, c: Call)
    requires AtRest(s) && s1 == s.(open := s2.open) && Invoked(s1, s2, k, c) && Shut(s2, s3)
    requires Steps(s2, s3.(open := s2.open)) && s3.open == {}
    ensures Delivered(s, s3, c) && Serves(s, s3)
  {
    hide Called, Serves, Reports, Following, Steps, Goes, Tracks;
    InvokedFacts(s1, s2, k, c);
    TimeoutServed(s, s2, s3);
    CalledServes(s1, s2, k);
    ServesAlike(s1, s2, s, s3);
  }

  lemma TimeoutPassed(s: Snap, s1: Snap, s2: Snap, s3: Snap, k: Key, c: Call)
    requires s1 == s.(open := s1.open) && Invoked(s1, s2, k, c) && Shut(s2, s3)
    ensures Smooth(s1, s2, k.fd, {k.wt}) ==> Passed(s, s3, Some(k))
  {
    hide Steps, Ahead, Following, Called;
    if Smooth(s1, s2, k.fd, {k.wt}) {
      StepsReport(s1, s2);
    }
  }

  lemma DelayedFlows(s: Snap, at: int, least: bool, s2: Snap)
    requires s.delays != [] && s2.delays != [] && HeapOrdered(s2.delays) && Begun(s, at, least).log <= s2.log
    requires Ran(Begun(s, at, least), s2, s.delays[0].item.hnd.script)
    ensures Flows(s, Ended(s2)) && (Tracks(Begun(s, at, least), s2) ==> Tracks(s, Ended(s2)))
    ensures
      var script := s.delays[0].item.hnd.script;
      NoCancels(script) ==> Brought(s, Ended(s2), script, None)
  {
    hide HeapOrdered, PopTop, Local, Modest, NoCancels, Brought, Effects, Tracks;
    var h := s.delays[0].item.hnd;
    CalledEffects(s, Begun(s, at, least), s2, RunDelay(s.delays[0], EioOk, at, least));
    EffectsAlike(s, s2, s, Ended(s2), []);
    EndedFewer(s2);
    DelayedTracks(s, at, least, s2);
    if NoCancels(h.script) {
      DelayedLeaves(s, at, least, s2);
    }
    if Orderly(s) {
      assert s.delays[0] in s.delays;
      LocalCancels(h, None);
      StaysOrderly(Begun(s, at, least), s2, h, None, None);
    }
  }

  lemma EndedFewer(s: Snap)
    requires s.delays != [] && HeapOrdered(s.delays)
    ensures forall e :: e in Ended(s).delays ==> e in s.delays
  {
    hide PopTop;
    PopTopCorrect(s.delays);
    forall e | e in PopTop(s.delays)
      ensures e in s.delays
    {
      assert e in multiset(PopTop(s.delays));
    }
  }

  lemma DelayedTracks(s: Snap, at: int, least: bool, s2: Snap)
    requires s.delays != [] && s2.delays != []
    ensures Tracks(Begun(s, at, least), s2) ==> Tracks(s, Ended(s2))
  {
    hide PopTop, EntryKept;
  }

  lemma DelayedLeaves(s: Snap, at: int, least: bool, s2: Snap)
    requires s.delays != [] && s2.delays != [] && HeapOrdered(s2.delays)
    requires Brought(Begun(s, at, least), s2, s.delays[0].item.hnd.script, None)
    ensures Brought(s, Ended(s2), s.delays[0].item.hnd.script, None)
  {
    hide HeapOrdered, PopTop, Heard, PostsOf, Tally, FirstFor;
    EndedFewer(s2);
  }

  lemma DelayedPassed(s: Snap, at: int, least: bool, s2: Snap, walking: bool)
    requires s.delays != [] && s2.delays != [] && s2.removed == s.removed && s2.shape == s.shape
    requires Steps(Begun(s, at, least), s2) && Ran(Begun(s, at, least), s2, s.delays[0].item.hnd.script)
    requires CalmScript(s.delays[0].item.hnd.script, walking, s.io.polls)
    ensures Passed(s, Ended(s2), None)
  {
    hide PopTop, Steps, Ahead, CalmScript, PostsOf, Effects, BroughtDelays, BroughtTimers, FirstFor, RegisteredBy;
    CalmCancels(s.delays[0].item.hnd.script, walking, s.io.polls);
    StepsReport(Begun(s, at, least), s2);
  }

  // ---------- the types of one entry ----------

  /** The handlers of `done` of the entry `p` have had their turn since `s0`. */
  ghost predicate Turning(s0: Snap, s1: Snap, p: PollFd, at: int, done: set<WaitType>) {
    && Ok(s1) && Steps(s0, s1) && |s1.removed| == |s0.removed| && Stage(s1.log, |s0.log|, p, at, done)
    && Serves(s0, s1) && s1.heldEvents == multiset{} && p.fd in s1.open
  }

  lemma TurnFacts(s0: Snap, s1: Snap, p: PollFd, at: int, done: set<WaitType>)
    ensures Turning(s0, s1, p, at, done) ==>
      && Ok(s1) && Steps(s0, s1) && |s1.removed| == |s0.removed| && Stage(s1.log, |s0.log|, p, at, done)
      && Serves(s0, s1) && s1.heldEvents == multiset{} && p.fd in s1.open && s0.log <= s1.log
  {
  }

  lemma TurnStarts(s: Snap, i: nat, at: int)
    requires Ok(s) && AtRest(s) && i < |s.io.polls| && (s.status.Running? || s.status.Stopping?)
    ensures
      var p := s.io.polls[i];
      Turning(s.(open := {p.fd}), s.(open := {p.fd}), p, at, {}) && Work(s.(open := {p.fd})) == Work(s)
  {
    hide Steps, Work, Stage, Serves, Ok;
    var p := s.io.polls[i];
    OpenOne(s, p.fd);
    StepsRefl(s.(open := {p.fd}));
    StageStarts(s.log, p, at);
    ServesRefl(s.(open := {p.fd}));
    OpenWork(s, {p.fd});
  }

  /** One more turn, in which the handler has been called. */
  lemma TurnTaken(s0: Snap, s1: Snap, s2: Snap, p: PollFd, at: int, done: set<WaitType>, wt: WaitType, code: ErrCode)
    requires Turning(s0, s1, p, at, done) && Ok(s2) && |s2.removed| == |s0.removed| && Key(p.fd, wt) in s1.io.regs
    requires Invoked(s1, s2, Key(p.fd, wt), EventCall(s1.io, Key(p.fd, wt), code, at, p.revents, false))
    requires code == CodeFor(p) && wt !in done && forall first :: first in done ==> InTurn(code, first, wt)
    ensures Turning(s0, s2, p, at, done + {wt}) && Due(s0.io.regs, |s0.log|, s2.log, Key(p.fd, wt), code)
  {
    hide Ok, Steps, Stage, Serves, Due, Work, Called, Following, EventCall;
    var k := Key(p.fd, wt);
    InvokedFacts(s1, s2, k, EventCall(s1.io, k, code, at, p.revents, false));
    StepsTrans(s0, s1, s2);
    AnswerStaged(s0, s1, s2, p, at, done, wt, code);
    CalledServes(s1, s2, k);
    ServesSteps(s0, s1, s2);
  }

  /** One more turn, of a type that is not called for. */
  lemma TurnSkipped(s0: Snap, s1: Snap, p: PollFd, at: int, done: set<WaitType>, wt: WaitType)
    ensures Turning(s0, s1, p, at, done) ==> Turning(s0, s1, p, at, done + {wt})
  {
    hide Ok, Steps, Serves;
    if Turning(s0, s1, p, at, done) {
      StageWider(s1.log, |s0.log|, p, at, done, done + {wt});
    }
  }

  /** Three turns answer an invalid entry. */
  lemma TurnsRefused(s: Snap, l1: seq<Call>, l2: seq<Call>, s3: Snap, i: nat, at: int)
    requires i < |s.io.polls| && PollNval in s.io.polls[i].revents && l1 <= l2 <= s3.log
    requires
      var p := s.io.polls[i];
      && Turning(s.(open := {p.fd}), s3, p, at, AllTypes)
      && Due(s.io.regs, |s.log|, l1, Key(p.fd, WaitRead), EioInvarg)
      && Due(s.io.regs, |s.log|, l2, Key(p.fd, WaitWrite), EioInvarg)
      && Due(s.io.regs, |s.log|, s3.log, Key(p.fd, WaitException), EioInvarg)
    ensures Answered(s, s3, i, at) && Serves(s.(open := {s.io.polls[i].fd}), s3)
  {
    hide Ok, Steps, Due, Stage, Serves, Settled, Work;
    TurnsDue(s, l1, l2, s3.log, s.io.polls[i], at);
  }

  /** Three turns answer an entry that may be ready. */
  lemma TurnsGranted(s: Snap, l1: seq<Call>, l2: seq<Call>, s3: Snap, i: nat, at: int)
    requires i < |s.io.polls| && PollNval !in s.io.polls[i].revents && l1 <= l2 <= s3.log
    requires
      var p := s.io.polls[i];
      && Turning(s.(open := {p.fd}), s3, p, at, AllTypes)
      && (Fires(p.revents, WaitException) ==> Due(s.io.regs, |s.log|, l1, Key(p.fd, WaitException), EioOk))
      && (Fires(p.revents, WaitRead) ==> Due(s.io.regs, |s.log|, l2, Key(p.fd, WaitRead), EioOk))
      && (Fires(p.revents, WaitWrite) ==> Due(s.io.regs, |s.log|, s3.log, Key(p.fd, WaitWrite), EioOk))
    ensures Answered(s, s3, i, at) && Serves(s.(open := {s.io.polls[i].fd}), s3)
  {
    hide Ok, Steps, Due, Stage, Serves, Settled, Work, Fires;
    TypesDue(s, l1, l2, s3.log, s.io.polls[i]);
  }

  /** Every ready type of the entry is registered. */
  predicate Awaited(regs: map<Key, Handler>, p: PollFd) {
    PollNval !in p.revents ==> forall wt :: Fires(p.revents, wt) ==> Key(p.fd, wt) in regs
  }

  lemma TurnIsCalm(s0: Snap, s1: Snap, k: Key, done: set<WaitType>)
    requires Ok(s1) && TameRegs(s0.io.regs) && Serves(s0, s1) && Smooth(s0, s1, k.fd, done) && k in s1.io.regs
    ensures CalmScript(s1.io.regs[k].script, false, s1.io.polls) && |s1.io.polls| == |s0.io.polls|
  {
    hide Ok, TameRegs, CalmScript, Flows;
    TameIsCalm(s1, k);
  }

  /** A ready type that is awaited is still registered when its turn comes. */
  lemma ReadyIsCalm(s0: Snap, s1: Snap, p: PollFd, wt: WaitType, done: set<WaitType>)
    requires Ok(s1) && TameRegs(s0.io.regs) && Serves(s0, s1) && Smooth(s0, s1, p.fd, done)
    requires Awaited(s0.io.regs, p) && PollNval !in p.revents && Fires(p.revents, wt) && wt !in done
    ensures Key(p.fd, wt) in s1.io.regs && |s1.io.polls| == |s0.io.polls|
    ensures CalmScript(s1.io.regs[Key(p.fd, wt)].script, false, s1.io.polls)
  {
    hide Ok, TameRegs, CalmScript, Flows;
    TurnIsCalm(s0, s1, Key(p.fd, wt), done);
  }

  // ---------- the entries of the poll vector ----------

  /** So it is with all entries from `i` on. */
  ghost predicate CoveredFrom(io: IoState, i: nat) { forall p :: Ahead(io.polls, i, p) ==> Awaited(io.regs, p) }

  lemma CoveredAt(io: IoState, i: nat)
    requires CoveredFrom(io, i) && i < |io.polls|
    ensures Awaited(io.regs, io.polls[i])
  {
    assert Ahead(io.polls, i, io.polls[i]);
  }

  /** What is registered for other descriptors is still registered, and there are no more nodes. */
  ghost predicate KeptOff(a: Snap, b: Snap, fd: int) {
    Size(b) <= Size(a) && forall k :: k in a.io.regs && k.fd != fd ==> k in b.io.regs
  }

  /** What an examined entry leaves registered. */
  lemma SmoothOff(a: Snap, b: Snap, fd: int, done: set<WaitType>)
    ensures Smooth(a, b, fd, done) ==> KeptOff(a, b, fd) && |b.io.polls| == |a.io.polls|
  {
  }

  /** An entry is opened, served, perhaps cleared, and closed. */
  lemma ExaminedServes(s: Snap, s0: Snap, s1: Snap, s2: Snap, s3: Snap, fd: int)
    requires s0 == s.(open := s0.open) && Serves(s0, s1) && Shut(s1, s2) && Shut(s2, s3)
    ensures Serves(s, s3) && (KeptOff(s0, s1, fd) ==> KeptOff(s, s3, fd))
  {
    hide Serves, Reports, RbShape.InOrder;
    ServesAlike(s0, s1, s, s3);
  }

  lemma CoveredNext(s: Snap, s3: Snap, i: nat, next: nat, at: int)
    requires Ok(s) && i < |s.io.polls| && CoveredFrom(s.io, i) && Examined(s, s3, i, next, at)
    requires KeptOff(s, s3, s.io.polls[i].fd)
    ensures CoveredFrom(s3.io, next)
  {
    hide Ok, Examined;
    OthersAhead(s, i);
    ExaminedLogs(s, s3, i, next, at);
    forall p | Ahead(s3.io.polls, next, p)
      ensures Awaited(s3.io.regs, p)
    {
      if p.revents != {} {
        assert Ahead(s.io.polls, i + 1, p);
        assert Awaited(s.io.regs, p);
      }
    }
  }

  /** dispatch_ready_events has come to entry `i`; `tame` when it can rely on its callbacks and on poll(). */
  ghost predicate Underway(s: Snap, s1: Snap, i: nat, at: int, tame: bool) {
    && Ok(s1) && AtRest(s1) && i <= |s1.io.polls| && Goes(s, s1) && Dispatched(s, s1, i, at) && Serves(s, s1)
    && (tame ==> TameRegs(s1.io.regs) && CoveredFrom(s1.io, i) && Size(s1) <= Size(s))
  }

  lemma UnderwayStarts(s: Snap, at: int, tame: bool)
    requires Ok(s) && AtRest(s) && (s.status.Running? || s.status.Stopping?)
    requires tame ==> TameRegs(s.io.regs) && CoveredFrom(s.io, 0)
    ensures Underway(s, s, 0, at, tame)
  {
    hide Ok, AtRest, Goes, Dispatched, Serves, TameRegs, CoveredFrom;
    GoesRefl(s);
    DispatchStarts(s, at);
    ServesRefl(s);
  }

  lemma UnderwayFacts(s: Snap, s1: Snap, i: nat, at: int, tame: bool)
    requires Underway(s, s1, i, at, tame)
    ensures Ok(s1) && AtRest(s1) && i <= |s1.io.polls| && Goes(s, s1)
    ensures tame ==> Size(s1) <= Size(s)
    ensures tame && i < |s1.io.polls| ==> TameRegs(s1.io.regs) && Awaited(s1.io.regs, s1.io.polls[i])
  {
    hide Ok, AtRest, Goes, Dispatched, TameRegs, CoveredFrom, Awaited, Serves;
    if tame && i < |s1.io.polls| {
      CoveredAt(s1.io, i);
    }
  }

  lemma UnderwayStep(s: Snap, s1: Snap, s2: Snap, i: nat, next: nat, at: int, tame: bool)
    requires Underway(s, s1, i, at, tame) && i < |s1.io.polls| && Examined(s1, s2, i, next, at) && Serves(s1, s2)
    requires tame ==> KeptOff(s1, s2, s1.io.polls[i].fd)
    ensures Underway(s, s2, next, at, tame)
    ensures StatusSteps(s1.status, s2.status)
  {
    hide Ok, AtRest, Goes, Dispatched, TameRegs, CoveredFrom, Awaited, Examined, Serves, Work, RbShape.InOrder;
    ExaminedFacts(s1, s2, i, next, at);
    GoesStatus(s1, s2);
    DispatchStep(s, s1, s2, i, next, at);
    ServesTrans(s, s1, s2);
    GoesTrans(s, s1, s2);
    ServesTame(s1, s2);
    if tame {
      CoveredNext(s1, s2, i, next, at);
    }
  }

  lemma UnderwayEnds(s: Snap, s1: Snap, i: nat, at: int, tame: bool)
    requires Underway(s, s1, i, at, tame) && i >= |s1.io.polls|
    ensures Ok(s1) && AtRest(s1) && Goes(s, s1) && DispatchDone(s, s1, at) && Serves(s, s1)
    ensures !Stuck(s1.io, s1.shape) && (tame ==> Size(s1) <= Size(s))
  {
    hide Ok, AtRest, Goes, Dispatched, DispatchDone, Serves, TameRegs, CoveredFrom, StuckAt;
    DispatchEnds(s, s1, i, at);
    NotStuck(s1);
  }
}
