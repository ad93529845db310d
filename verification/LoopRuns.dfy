/** What poll() may come back with, what a stopping service may run into, and where whole runs leave the hypotheses
    (src/io_service.c). */
module LoopRuns {
  import opened IoTypes
  import opened DeadlineHeap
  import opened IoModel
  import opened LoopState
  import opened LoopRounds
  import opened LoopDispatch
  import opened LoopCalls
  import opened LoopEffects
  import opened LoopScripts
  import opened LoopTame
  import opened LoopTurns
  import RbShape

  // ---------- polling ----------

  /** What poll() may come back with: an error, a signal, the end of its time limit, or ready descriptors. */
  datatype PollResult = Failed | Interrupted | TimedOut | SomeReady

  /** A return from poll(), and the state in which it left the service. */
  datatype Wakeup = Wakeup(ready: PollResult, woke: Snap)

  /** The least deadline has passed. */
  predicate Over(s: Snap) {
    var d := NextDeadline(s.delays, s.io.timed).0;
    d != -1 && d <= s.now
  }

  /** Comparing elapsed time and delay tells just that. */
  lemma OverIff(s: Snap, delay: int, elapsed: int)
    requires Ok(s) && elapsed >= 0 && delay == PollDelay(NextDeadline(s.delays, s.io.timed).0, s.now - elapsed)
    ensures Over(s) <==> delay != -1 && elapsed >= delay
  {
    hide NextDeadline;
    NextDeadlineLeast(s);
  }

  /** A return that the loop does not allow for: a signal, the end of a time limit that is not over, or a ready
      type that is not registered. */
  ghost predicate Lapse(w: Wakeup) {
    match w.ready
    case Interrupted => true
    case TimedOut => !Over(w.woke)
    case SomeReady => !CoveredFrom(w.woke.io, 0)
    case Failed => false
  }

  ghost predicate LapseIn(wakeups: seq<Wakeup>, from: nat) { exists i :: from <= i < |wakeups| && Lapse(wakeups[i]) }

  predicate FailureIn(wakeups: seq<Wakeup>, from: nat) { exists i :: from <= i < |wakeups| && wakeups[i].ready.Failed? }

  lemma TopNotReady(io: IoState, p: PollFd)
    requires PollsOk(io.polls, io.regs) && io.timed != [] && !TopReady(io) && Ahead(io.polls, 0, p)
    ensures p.fd == io.timed[0].item.key.fd ==> !Fires(p.revents, io.timed[0].item.key.wt)
  {
    TopFlags(p.revents, io.timed[0].item.key.wt);
    var j :| 0 <= j < |io.polls| && io.polls[j].fd == p.fd && io.polls[j].revents == p.revents;
    FindPollIs(io.polls, j);
  }

  /** Registrations that are ready stay so over a timeout, since that is not of a ready event. */
  lemma CoveredAfter(s: Snap, s1: Snap, but: Option<Key>)
    requires Ok(s) && CoveredFrom(s.io, 0) && Passed(s, s1, but)
    requires but.Some? ==> s.io.timed != [] && s.io.timed[0].item.key == but.value && !TopReady(s.io)
    ensures CoveredFrom(s1.io, 0) && Size(s1) <= Size(s)
  {
    hide DelaysOk, LogOk, Conserved, TimersDue, NoIdle;
    forall p, wt | Ahead(s1.io.polls, 0, p) && PollNval !in p.revents && Fires(p.revents, wt)
      ensures Key(p.fd, wt) in s1.io.regs
    {
      assert Ahead(s.io.polls, 0, p) && Awaited(s.io.regs, p);
      if but.Some? {
        TopNotReady(s.io, p);
      }
    }
  }

  /** poll() itself stops and stores nothing. */
  lemma WokeFlows(s: Snap, woke: Snap, s1: Snap)
    requires Alike(woke, s) && woke.sync == s.sync && woke.delays == s.delays && Flows(woke, s1)
    ensures Effects(s, s1, []) && (Orderly(s) ==> Orderly(s1))
  {
    hide Orderly, Effects;
    OrderlyParts(s, woke);
    EffectsAlike(woke, s1, s, s1, []);
  }

  /** A failing poll() stops the service, and that is all. */
  lemma FailedCarried(s: Snap, s1: Snap)
    requires s.status.Running? && s1.status.Stopping? && s1.log == s.log
    requires s1.posts == s.posts && s1.taken == s.taken && s1.regd == s.regd
    ensures Carried(s, s1, [])
  {
    hide Carried;
    EffectsRefl(s);
    EffectsCarried(s, s, []);
    CarriedOn(s, s, s1, []);
  }

  lemma EffectsCarried(a: Snap, b: Snap, script: seq<Action>)
    requires Effects(a, b, script)
    ensures Carried(a, b, script)
  {
  }

  // ---------- what a return from poll() leads to ----------

  predicate Cancelled(c: Call) { c.RunEvent? && c.status == EioCancelled }

  /** The invocation by which the least deadline of this state is timed out. */
  predicate IsTimeout(s: Snap, c: Call) {
    var (d, isEvent) := NextDeadline(s.delays, s.io.timed);
    && d != -1 && d <= s.now
    && if isEvent then
         && s.io.timed != [] && s.io.timed[0].item.key in s.io.regs
         && c == EventCall(s.io, s.io.timed[0].item.key, EioTimeout, s.now, {}, true)
       else s.delays != [] && c == RunDelay(s.delays[0], EioOk, s.now, true)
  }

  /** Something is to be timed out. */
  predicate TimesOut(w: Wakeup) { w.ready.TimedOut? || (w.ready.SomeReady? && Expired(w.woke)) }

  /** What this return from poll() calls for has been called: the least deadline, if it is to be timed out, before
      anything else, and everything registered that the entries of the vector call for. */
  ghost predicate Acted(log: seq<Call>, w: Wakeup) {
    && (TimesOut(w) ==> |log| > |w.woke.log| && IsTimeout(w.woke, log[|w.woke.log|]))
    && (w.ready.SomeReady? ==> forall p, wt :: p in w.woke.io.polls && CalledFor(p, wt) ==>
          var k := Key(p.fd, wt);
          k in w.woke.io.regs ==> Served(log, |w.woke.log|, k, w.woke.io.regs[k]))
  }

  /** Nothing else has been called, except what was cancelled. */
  predicate OnlyFor(log: seq<Call>, w: Wakeup) {
    forall i :: |w.woke.log| <= i < |log| ==>
      || Cancelled(log[i])
      || (i == |w.woke.log| && TimesOut(w) && IsTimeout(w.woke, log[i]))
      || (w.ready.SomeReady? && Direct(log[i]) && log[i].at == w.woke.now
          && Listed(w.woke.io.polls, log[i].key.fd, log[i].revents))
  }

  /** The log when everything that follows from this return of poll() has been done. */
  ghost predicate Turned(log: seq<Call>, w: Wakeup) {
    w.woke.log <= log && Acted(log, w) && OnlyFor(log, w) && OnceInTurn(log, |w.woke.log|)
  }

  lemma FailedTurned(woke: Snap)
    ensures Turned(woke.log, Wakeup(Failed, woke))
  {
  }

  /** A timeout and nothing else. */
  lemma TimeoutTurned(woke: Snap, log: seq<Call>)
    requires woke.log < log && IsTimeout(woke, log[|woke.log|]) && Following(log, |woke.log|)
    ensures Turned(log, Wakeup(TimedOut, woke))
  {
    hide IsTimeout, Asked;
    TimeoutNotDirect(woke, log[|woke.log|]);
  }

  lemma TimeoutNotDirect(s: Snap, c: Call)
    ensures IsTimeout(s, c) ==> !Direct(c) && !Stopped(c)
  {
  }

  /** Perhaps a timeout, by which `s` becomes `mid`, and then the entries of the vector. */
  lemma ReadyTurned(s: Snap, mid: Snap, s1: Snap)
    requires Ok(s1) && Tracks(s, mid) && s.log <= mid.log && DispatchDone(mid, s1, s.now)
    requires if Expired(s) then s.log < mid.log && IsTimeout(s, mid.log[|s.log|]) && Following(mid.log, |s.log|)
             else mid == s
    ensures Turned(s1.log, Wakeup(SomeReady, s))
  {
    hide Ok, IsTimeout, Expired, Tracks, Settled, OnlyDispatch, OnceInTurn, FromEntries, Following;
    ReadyOnly(s, mid, s1);
    ReadyOnce(s, mid, s1);
    forall p, wt | p in s.io.polls && CalledFor(p, wt) && Key(p.fd, wt) in s.io.regs
      ensures Served(s1.log, |s.log|, Key(p.fd, wt), s.io.regs[Key(p.fd, wt)])
    {
      ReadyServed(s, mid, s1, p, wt);
    }
  }

  lemma ReadyServed(s: Snap, mid: Snap, s1: Snap, p: PollFd, wt: WaitType)
    requires Tracks(s, mid) && s.log <= mid.log <= s1.log && p in s.io.polls && CalledFor(p, wt)
    requires forall p :: p in mid.io.polls ==> Settled(mid.io.regs, |mid.log|, s1.log, p)
    requires Key(p.fd, wt) in s.io.regs
    ensures Served(s1.log, |s.log|, Key(p.fd, wt), s.io.regs[Key(p.fd, wt)])
  {
    hide Settled, Served;
    var k := Key(p.fd, wt);
    if Served(mid.log, |s.log|, k, s.io.regs[k]) {
      ServedLater(mid.log, s1.log, |s.log|, |s.log|, k, s.io.regs[k]);
    } else {
      assert Listed(s.io.polls, p.fd, p.revents);
      var p' :| p' in mid.io.polls && p'.fd == p.fd && p'.revents == p.revents;
      SettledServed(mid.io.regs, |mid.log|, s1.log, p', wt);
      ServedLater(s1.log, s1.log, |mid.log|, |s.log|, k, s.io.regs[k]);
    }
  }

  lemma SettledServed(regs: map<Key, Handler>, from: nat, log: seq<Call>, p: PollFd, wt: WaitType)
    requires Settled(regs, from, log, p) && CalledFor(p, wt) && Key(p.fd, wt) in regs
    ensures Served(log, from, Key(p.fd, wt), regs[Key(p.fd, wt)])
  {
    assert Due(regs, from, log, Key(p.fd, wt), CodeFor(p));
  }

  lemma ReadyOnly(s: Snap, mid: Snap, s1: Snap)
    requires Ok(s1) && Tracks(s, mid) && s.log <= mid.log <= s1.log
    requires OnlyDispatch(s1.log, |mid.log|) && FromEntries(s1.log, |mid.log|, mid.io.polls, s.now)
    requires if Expired(s) then s.log < mid.log && IsTimeout(s, mid.log[|s.log|]) && Following(mid.log, |s.log|)
             else mid == s
    ensures OnlyFor(s1.log, Wakeup(SomeReady, s))
  {
    hide IsTimeout, Expired, Asked, EntryKept, IoInv, Conserved, DelaysOk, TimersDue, NoIdle;
    forall i | |mid.log| <= i < |s1.log| && Direct(s1.log[i])
      ensures Listed(s.io.polls, s1.log[i].key.fd, s1.log[i].revents)
    {
      DirectHasReason(s1.log, i);
    }
    forall i | |s.log| <= i < |mid.log|
      ensures s1.log[i] == mid.log[i]
    {
    }
  }

  lemma ReadyOnce(s: Snap, mid: Snap, s1: Snap)
    requires s.log <= mid.log <= s1.log && OnceInTurn(s1.log, |mid.log|)
    requires if Expired(s) then s.log < mid.log && IsTimeout(s, mid.log[|s.log|]) && Following(mid.log, |s.log|)
             else mid == s
    ensures OnceInTurn(s1.log, |s.log|)
  {
    hide IsTimeout, Expired, Asked;
    if Expired(s) {
      TimeoutNotDirect(s, mid.log[|s.log|]);
    }
    forall i | |s.log| <= i < |mid.log|
      ensures s1.log[i] == mid.log[i] && !Direct(s1.log[i])
    {
    }
  }

  // ---------- the rhythm of a run ----------

  /** A call before the service polls again, or never again. */
  predicate Unpolled(c: Call) { c.RunPost? || Cancelled(c) || Stopped(c) }

  predicate AllUnpolled(log: seq<Call>, from: nat, to: nat) {
    forall i :: from <= i < to && i < |log| ==> Unpolled(log[i])
  }

  lemma NoneUnpolled(log: seq<Call>)
    ensures AllUnpolled(log, |log|, |log|)
  {
  }

  /** A posted handler and what it cancels. */
  lemma FrontUnpolled(l1: seq<Call>, l2: seq<Call>, from: nat)
    requires from <= |l1| < |l2| && l1 <= l2 && AllUnpolled(l1, from, |l1|) && l2[|l1|].RunPost? && Following(l2, |l1|)
    ensures AllUnpolled(l2, from, |l2|)
  {
    hide Asked;
    forall i | from <= i < |l1|
      ensures l2[i] == l1[i]
    {
    }
  }

  /** The log length at the next return from poll(), or now. */
  function NextWakeup(wakeups: seq<Wakeup>, i: nat, log: seq<Call>): nat {
    if i < |wakeups| then |wakeups[i].woke.log| else |log|
  }

  /** After this return from poll() everything has been done that follows from it, and then, until the next one,
      only posted handlers have run. */
  ghost predicate Turn(w: Wakeup, log: seq<Call>, next: nat) {
    exists end :: |w.woke.log| <= end <= next <= |log| && Turned(log[..end], w) && AllUnpolled(log, end, next)
  }

  /** poll() is called with no posted handler waiting, and only to wait for something; nothing has been stopped. */
  predicate Rested(w: Wakeup, from: nat) {
    && w.woke.sync == [] && (w.woke.io.polls != [] || w.woke.delays != [])
    && from <= |w.woke.log| && NoStops(w.woke.log, from)
  }

  /** What a run has logged since `from`, return by return. */
  ghost predicate Paced(log: seq<Call>, from: nat, wakeups: seq<Wakeup>, from': nat) {
    && AllUnpolled(log, from, NextWakeup(wakeups, from', log))
    && forall i :: from' <= i < |wakeups| ==>
         Rested(wakeups[i], from) && Turn(wakeups[i], log, NextWakeup(wakeups, i + 1, log))
  }

  /** Handlers called with EIO_STOPPED come last. */
  predicate StopsLast(log: seq<Call>, from: nat) {
    forall i, j :: from <= i < j < |log| && Stopped(log[i]) ==> Stopped(log[j])
  }

  lemma PacedStarts(log: seq<Call>, wakeups: seq<Wakeup>)
    ensures Paced(log, |log|, wakeups, |wakeups|) && StopsLast(log, |log|)
  {
  }

  lemma TurnLater(w: Wakeup, l1: seq<Call>, l2: seq<Call>, next: nat, next': nat)
    requires Turn(w, l1, next) && l1 <= l2 && (next' == next || next <= next' <= |l2|) && AllUnpolled(l2, next, next')
    ensures Turn(w, l2, next')
  {
    hide Turned;
    var end :| |w.woke.log| <= end <= next <= |l1| && Turned(l1[..end], w) && AllUnpolled(l1, end, next);
    assert l2[..end] == l1[..end];
  }

  /** A round that does not poll. */
  lemma PacedOn(l1: seq<Call>, l2: seq<Call>, from: nat, wakeups: seq<Wakeup>, from': nat)
    requires Paced(l1, from, wakeups, from') && l1 <= l2 && AllUnpolled(l2, |l1|, |l2|)
    ensures Paced(l2, from, wakeups, from')
  {
    hide Turn, Rested;
    forall i | from' <= i < |wakeups|
      ensures Turn(wakeups[i], l2, NextWakeup(wakeups, i + 1, l2))
    {
      TurnLater(wakeups[i], l1, l2, NextWakeup(wakeups, i + 1, l1), NextWakeup(wakeups, i + 1, l2));
    }
  }

  /** A round that polls. */
  lemma PacedPoll(l1: seq<Call>, l2: seq<Call>, from: nat, wakeups: seq<Wakeup>, from': nat, w: Wakeup)
    requires Paced(l1, from, wakeups, from') && from' <= |wakeups| && l1 <= w.woke.log <= l2
    requires AllUnpolled(l2, |l1|, |w.woke.log|) && Turned(l2, w) && Rested(w, from)
    ensures Paced(l2, from, wakeups + [w], from')
  {
    hide Turn, Rested, Turned, Unpolled;
    var wakeups' := wakeups + [w];
    if from' == |wakeups| {
      assert wakeups'[from'] == w;
    } else {
      assert wakeups'[from'] == wakeups[from'];
      TurnFits(wakeups[from'], l1, NextWakeup(wakeups, from' + 1, l1));
    }
    forall i | from' <= i < |wakeups'|
      ensures Rested(wakeups'[i], from) && Turn(wakeups'[i], l2, NextWakeup(wakeups', i + 1, l2))
    {
      if i < |wakeups| {
        assert wakeups'[i] == wakeups[i];
        TurnLater(wakeups[i], l1, l2, NextWakeup(wakeups, i + 1, l1), NextWakeup(wakeups', i + 1, l2));
      } else {
        TurnNow(l2, w);
      }
    }
  }

  lemma TurnFits(w: Wakeup, log: seq<Call>, next: nat)
    requires Turn(w, log, next)
    ensures |w.woke.log| <= next <= |log|
  {
  }

  lemma TurnNow(log: seq<Call>, w: Wakeup)
    requires Turned(log, w)
    ensures Turn(w, log, |log|)
  {
    assert log[..|log|] == log;
  }

  lemma OrderlyTop(s: Snap)
    requires Ok(s) && Orderly(s) && Over(s)
    ensures
      if NextDeadline(s.delays, s.io.timed).1 then s.io.timed != [] && CalmTop(s.io, false)
      else s.delays != [] && CalmScript(s.delays[0].item.hnd.script, false, s.io.polls)
  {
    hide Ok, CalmScript, Local, Modest, NextDeadline;
    NextDeadlineLeast(s);
    if NextDeadline(s.delays, s.io.timed).1 {
      TimeoutCall(s, s.now);
      TameIsCalm(s, s.io.timed[0].item.key);
    } else {
      assert s.delays[0] in s.delays;
      LocalCalm(s.delays[0].item.hnd, None, s.io.polls);
    }
  }

  // ---------- stopping ----------

  /** A registered handler schedules with a time limit. */
  predicate TimedLeft(regs: map<Key, Handler>) { exists k :: k in regs && HasTimed(regs[k].script) }

  predicate TimedIn(calls: seq<(Key, Handler)>) { exists i :: 0 <= i < |calls| && HasTimed(calls[i].1.script) }

  lemma TimedInNext(calls: seq<(Key, Handler)>, i: nat)
    requires i < |calls|
    ensures TimedIn(calls[..i + 1]) <==> TimedIn(calls[..i]) || HasTimed(calls[i].1.script)
    ensures HasTimed(calls[i].1.script) ==> TimedIn(calls)
  {
    hide HasTimed;
    var next := calls[..i + 1];
    assert next[i] == calls[i];
    forall j | 0 <= j < i
      ensures next[j] == calls[..i][j]
    {
    }
  }

  /** A walk meets every registered handler. */
  lemma WalkTimed(regs: map<Key, Handler>, calls: seq<(Key, Handler)>)
    requires multiset(calls) == multiset(regs.Items)
    ensures TimedLeft(regs) <==> TimedIn(calls)
    ensures !TimedIn(calls[..0])
  {
    hide HasTimed;
    if k :| k in regs && HasTimed(regs[k].script) {
      assert (k, regs[k]) in regs.Items;
      assert (k, regs[k]) in multiset(calls);
    }
    forall i | 0 <= i < |calls|
      ensures calls[i].0 in regs && regs[calls[i].0] == calls[i].1
    {
      WalkedIsRegistered(regs, calls, i);
    }
  }

  // ---------- whole runs ----------

  /** Where a run of handlers that keep to their own descriptor leaves the hypotheses: a node cannot be removed
      properly, a handler called by a stopping service schedules with a time limit, or poll() has lapsed. */
  ghost predicate Blamed(s: Snap, wakeups: seq<Wakeup>, from: nat) {
    Stuck(s.io, s.shape) || (s.status.Stopping? && TimedLeft(s.io.regs)) || LapseIn(wakeups, from)
  }

  /** A started service has been stopped, by a handler or by a failing poll(). */
  predicate StopSeen(log: seq<Call>, from: nat, wakeups: seq<Wakeup>, from': nat) {
    StopIn(log, from) || FailureIn(wakeups, from')
  }

  lemma OrderlyPosts(s: Snap)
    ensures Orderly(s) ==> TamePosts(s.sync)
  {
  }

  lemma FlowsFacts(a: Snap, b: Snap)
    ensures Flows(a, b) ==> Effects(a, b, []) && (Orderly(a) ==> Orderly(b))
  {
  }

  lemma NothingOrderly(s: Snap)
    requires s.sync == [] && s.delays == [] && s.io == Idle && s.shape == RbShape.Nil
    ensures Orderly(s) && Size(s) == 0
  {
  }

  /** What a run has come to since it was started in `s0`: it went round as it should, all that its callbacks asked
      for has been taken, and it has been stopped exactly for a reason. */
  ghost predicate Recorded(s0: Snap, s: Snap, wakeups: seq<Wakeup>, from: nat) {
    && from <= |wakeups| && s0.log <= s.log && Paced(s.log, |s0.log|, wakeups, from) && StopsLast(s.log, |s0.log|)
    && Carried(s0, s, []) && (s.status.Stopping? <==> StopSeen(s.log, |s0.log|, wakeups, from))
  }

  lemma RecordedStarts(s: Snap, wakeups: seq<Wakeup>)
    requires s.status.Running?
    ensures Recorded(s, s, wakeups, |wakeups|)
  {
    hide Carried, Paced, StopsLast;
    PacedStarts(s.log, wakeups);
    EffectsRefl(s);
    EffectsCarried(s, s, []);
  }

  lemma RecordedFacts(s0: Snap, s: Snap, wakeups: seq<Wakeup>, from: nat)
    requires Recorded(s0, s, wakeups, from)
    ensures from <= |wakeups| && s0.log <= s.log && Paced(s.log, |s0.log|, wakeups, from)
    ensures StopsLast(s.log, |s0.log|) && Carried(s0, s, [])
    ensures s.status.Stopping? <==> StopSeen(s.log, |s0.log|, wakeups, from)
  {
  }

  lemma CarriedTwice(a: Snap, b: Snap, c: Snap)
    requires Carried(a, b, []) && Carried(b, c, []) && Goes(a, b) && Goes(b, c)
    ensures Carried(a, c, [])
  {
    hide Carried, Accounted;
    var none: seq<Action> := [];
    assert none + none == none;
    CarriedCat(a, b, c, none, none);
  }

  lemma StopInLater(l1: seq<Call>, l2: seq<Call>, from: nat)
    requires from <= |l1| && l1 <= l2
    ensures StopIn(l2, from) <==> StopIn(l1, from) || StopIn(l2, |l1|)
  {
    forall i | from <= i < |l1|
      ensures l2[i] == l1[i]
    {
    }
  }

  lemma NoneStopsLast(a: Snap, b: Snap)
    requires Goes(a, b)
    ensures StopsLast(b.log, |a.log|) && NoStops(b.log, |a.log|)
  {
  }

  /** The posted handlers have run. */
  lemma RecordedSync(s0: Snap, s1: Snap, s2: Snap, wakeups: seq<Wakeup>, from: nat)
    requires Recorded(s0, s1, wakeups, from) && Goes(s0, s1) && Goes(s1, s2) && Effects(s1, s2, [])
    requires AllUnpolled(s2.log, |s1.log|, |s2.log|) && (s1.status.Running? || s1.status.Stopping?)
    ensures Recorded(s0, s2, wakeups, from) && Goes(s0, s2)
  {
    hide Carried, Goes, Paced, StopsLast, StopIn, FailureIn, AllUnpolled;
    GoesStatus(s0, s1);
    GoesStatus(s1, s2);
    GoesTrans(s0, s1, s2);
    PacedOn(s1.log, s2.log, |s0.log|, wakeups, from);
    NoneStopsLast(s0, s2);
    CarriedTwice(s0, s1, s2);
    StopInLater(s1.log, s2.log, |s0.log|);
  }

  lemma FailureNext(wakeups: seq<Wakeup>, w: Wakeup, from: nat)
    requires from <= |wakeups|
    ensures FailureIn(wakeups + [w], from) <==> FailureIn(wakeups, from) || w.ready.Failed?
  {
    assert (wakeups + [w])[|wakeups|] == w;
    forall i | from <= i < |wakeups|
      ensures (wakeups + [w])[i] == wakeups[i]
    {
    }
  }

  /** poll() has returned, and what follows from that has been done. */
  lemma RecordedPoll(s0: Snap, s2: Snap, s3: Snap, wakeups: seq<Wakeup>, from: nat, w: Wakeup)
    requires Recorded(s0, s2, wakeups, from) && s2.status.Running? && Goes(s0, s2) && Goes(s2, s3)
    requires Carried(s2, s3, []) && if w.ready.Failed? then s3.status.Stopping? && s3.log == s2.log
                                    else Effects(s2, s3, [])
    requires Turned(s3.log, w) && w.woke.log == s2.log && w.woke.sync == []
      && (w.woke.io.polls != [] || w.woke.delays != [])
    ensures Recorded(s0, s3, wakeups + [w], from) && Goes(s0, s3)
  {
    hide Carried, Goes, Paced, StopsLast, StopIn, FailureIn, Turned, AllUnpolled, NoStops;
    GoesStatus(s0, s2);
    GoesStatus(s2, s3);
    GoesTrans(s0, s2, s3);
    NoneStopsLast(s0, s2);
    NoneStopsLast(s0, s3);
    UnpolledNone(s3.log, |s2.log|);
    PacedPoll(s2.log, s3.log, |s0.log|, wakeups, from, w);
    CarriedTwice(s0, s2, s3);
    StopInLater(s2.log, s3.log, |s0.log|);
    FailureNext(wakeups, w, from);
    StopInNone(s2.log);
  }

  lemma StopInNone(log: seq<Call>)
    ensures !StopIn(log, |log|)
  {
  }

  lemma UnpolledNone(log: seq<Call>, from: nat)
    ensures AllUnpolled(log, from, from)
  {
  }

  /** What has been taken is the same whatever the status is said to be. */
  lemma RunCarried(s: Snap, s0: Snap, s1: Snap, s2: Snap)
    requires Carried(s0, s1, []) && s0 == s.(status := s0.status) && s2 == s1.(status := s2.status)
    ensures AtMost(s, s2, Made(s2.log, |s.log|)) && (s1.status.Running? ==> Complete(s, s2, []))
  {
    hide Tally, Made, Registering, Heeded, Asked, Served;
    var none: seq<Action> := [];
    assert multiset(none) + Made(s2.log, |s.log|) == Made(s2.log, |s.log|);
  }

  /** When a run that has not been stopped is over, every handler that was posted, delayed or registered by a
      handler invoked meanwhile has itself been invoked. */
  lemma EverythingCalled(a: Snap, b: Snap)
    requires Complete(a, b, []) && AllDone(b)
    ensures
      var made := Made(b.log, |a.log|);
      && (forall h :: multiset(RanPosts(b.log))[h] == multiset(a.posts)[h] + made[Post(Some(h))])
      && (forall d: Delayed | d.ms >= 0 ::
            Tally(RanDelays(b.log), d) == Tally(a.taken, d) + made[PostDelay(Some(d.hnd), d.ms)])
      && (forall i, x, k :: |a.log| <= i < |b.log| && x in ScriptOf(b.log[i]) && Asks(x, k) ==>
            EventRan(b.log, i + 1, k))
  {
    hide Tally, Made, EventRan, CancelsServed;
    var none: seq<Action> := [];
    assert multiset(none) + Made(b.log, |a.log|) == Made(b.log, |a.log|);
  }

  /** iosvc_prep_stop has called everything that was left. */
  lemma RecordedStop(s0: Snap, s2: Snap, s3: Snap, wakeups: seq<Wakeup>, from: nat, calls: seq<(Key, Handler)>, at: int)
    requires Recorded(s0, s2, wakeups, from) && Goes(s0, s2) && s2.status.Stopping? && s3.status.Stopping?
    requires
      var stopped := s2.log + StopDelayCalls(s2.delays);
      stopped <= s3.log && StopEventCalls(s3.log[|stopped|..], s2.io, calls, at)
    requires s3.posts == s2.posts && s3.taken == s2.taken && s3.regd == s2.regd
    ensures Recorded(s0, s3, wakeups, from)
  {
    hide Carried, Goes, Paced, StopsLast, StopIn, FailureIn, AllUnpolled, StopEventCalls, StopDelayCalls, NoStops;
    assert s2.log <= s2.log + StopDelayCalls(s2.delays) <= s3.log;
    NoneStopsLast(s0, s2);
    StoppedCalls(s0.log, s2.log, s3.log, s2.delays, s2.io, calls, at);
    PacedOn(s2.log, s3.log, |s0.log|, wakeups, from);
    CarriedOn(s0, s2, s3, []);
    StopInLater(s2.log, s3.log, |s0.log|);
  }

  lemma StoppedCalls(l0: seq<Call>, l2: seq<Call>, l3: seq<Call>, delays: seq<Entry<Delayed>>, io: IoState,
      calls: seq<(Key, Handler)>, at: int)
    requires l0 <= l2 && NoStops(l2, |l0|)
    requires
      var stopped := l2 + StopDelayCalls(delays);
      stopped <= l3 && StopEventCalls(l3[|stopped|..], io, calls, at)
    ensures AllUnpolled(l3, |l2|, |l3|) && StopsLast(l3, |l0|)
  {
    var stopped := l2 + StopDelayCalls(delays);
    forall i | |l2| <= i < |l3|
      ensures Stopped(l3[i])
    {
      if i < |stopped| {
        assert l3[i] == stopped[i] == StopDelayCalls(delays)[i - |l2|];
      } else {
        assert l3[i] == l3[|stopped|..][i - |stopped|];
      }
    }
    forall i | |l0| <= i < |l2|
      ensures l3[i] == l2[i]
    {
    }
  }

  /** The blame for a round that has polled. */
  lemma BlamedNow(s: Snap, wakeups: seq<Wakeup>, w: Wakeup)
    requires Lapse(w) || Stuck(s.io, s.shape)
    ensures Blamed(s, wakeups + [w], |wakeups|)
  {
    hide Stuck, Lapse;
    assert (wakeups + [w])[|wakeups|] == w;
  }

  lemma BlamedStopping(s: Snap, wakeups: seq<Wakeup>)
    requires s.status.Stopping? && TimedLeft(s.io.regs)
    ensures Blamed(s, wakeups, |wakeups|)
  {
  }

  lemma BlamedEarlier(s: Snap, wakeups: seq<Wakeup>, from: nat, from': nat)
    requires Blamed(s, wakeups, from') && from <= from'
    ensures Blamed(s, wakeups, from)
  {
  }

  lemma LapseNow(wakeups: seq<Wakeup>, w: Wakeup)
    ensures LapseIn(wakeups + [w], |wakeups|) <==> Lapse(w)
  {
    hide Lapse;
    assert (wakeups + [w])[|wakeups|] == w;
  }

  lemma LapseEarlier(w1: seq<Wakeup>, w2: seq<Wakeup>, from: nat)
    requires w1 <= w2 && from <= |w1|
    ensures LapseIn(w1, from) || LapseIn(w2, |w1|) ==> LapseIn(w2, from)
  {
    hide Lapse;
    if i :| from <= i < |w1| && Lapse(w1[i]) {
      assert w2[i] == w1[i];
    }
  }

  /** With one or two descriptors a node can always be removed. */
  lemma SmallBlame(s: Snap, wakeups: seq<Wakeup>, from: nat)
    ensures Blamed(s, wakeups, from) && Size(s) < 3 && !LapseIn(wakeups, from) ==>
      s.status.Stopping? && TimedLeft(s.io.regs)
  {
    hide LapseIn, TimedLeft, RbShape.InOrder;
    if Stuck(s.io, s.shape) {
      StuckNeedsThree(s);
    }
  }
}
