/** dispatch_ready_events: which handlers are invoked for the entries of the poll vector, with which status, and
    that none is invoked twice, left out, or invoked without reason (src/io_service.c). */
module LoopDispatch {
  import opened IoTypes
  import opened DeadlineHeap
  import opened IoModel
  import opened LoopState
  import opened LoopRounds
  import RbShape
  import Registry

  // ---------- what dispatch logs ----------

  /** An invocation by dispatch itself; everything else logged meanwhile is cancelled by a callback. */
  predicate Direct(c: Call) { c.RunEvent? && (c.status == EioOk || c.status == EioInvarg) }

  predicate OnlyDispatch(log: seq<Call>, from: nat) {
    forall i :: from <= i < |log| ==>
      log[i].RunEvent? && (Direct(log[i]) || (log[i].status == EioCancelled && Asked(log, from, i, log[i].key)))
  }

  /** The order in which the types of one descriptor have their turn: priority, then reading, then writing; on an
      invalid descriptor reading, then writing, then priority. */
  predicate InTurn(code: ErrCode, first: WaitType, second: WaitType) {
    match code
    case EioInvarg => (first == WaitRead && second != WaitRead) || (first == WaitWrite && second == WaitException)
    case _ => (first == WaitException && second != WaitException) || (first == WaitRead && second == WaitWrite)
  }

  /** Nothing is invoked twice, and handlers of one descriptor are invoked in turn and with the same status. */
  predicate OnceInTurn(log: seq<Call>, from: nat) {
    forall i, j :: from <= i < j < |log| && Direct(log[i]) && Direct(log[j]) ==>
      && log[i].key != log[j].key
      && (log[i].key.fd == log[j].key.fd ==>
            log[i].status == log[j].status && InTurn(log[i].status, log[i].key.wt, log[j].key.wt))
  }

  /** The status with which handlers are called for this entry, and the types for which they are. */
  function CodeFor(p: PollFd): ErrCode { if PollNval in p.revents then EioInvarg else EioOk }

  predicate CalledFor(p: PollFd, wt: WaitType) { PollNval in p.revents || Fires(p.revents, wt) }

  /** The handler `h` registered for `k` has been invoked with this status, or a handler invoked before has
      cancelled it. */
  predicate AnsweredBy(log: seq<Call>, from: nat, k: Key, h: Handler, code: ErrCode) {
    exists i :: from <= i < |log| && Answers(log, from, i, k, h, code)
  }

  predicate Answers(log: seq<Call>, from: nat, i: nat, k: Key, h: Handler, code: ErrCode)
    requires i < |log|
  {
    log[i].RunEvent? && log[i].key == k && log[i].hnd == h
    && (log[i].status == code || (log[i].status == EioCancelled && Asked(log, from, i, k)))
  }

  predicate Due(regs: map<Key, Handler>, from: nat, log: seq<Call>, k: Key, code: ErrCode) {
    k in regs ==> AnsweredBy(log, from, k, regs[k], code)
  }

  /** Everything registered for the entry's descriptor that its revents call for has been answered. */
  predicate Settled(regs: map<Key, Handler>, from: nat, log: seq<Call>, p: PollFd) {
    forall wt :: CalledFor(p, wt) ==> Due(regs, from, log, Key(p.fd, wt), CodeFor(p))
  }

  lemma AnswersLater(l1: seq<Call>, l2: seq<Call>, from: nat, from': nat, i: nat, k: Key, h: Handler, code: ErrCode)
    requires l1 <= l2 && i < |l1| && from' <= from && Answers(l1, from, i, k, h, code)
    ensures Answers(l2, from', i, k, h, code)
  {
  }

  lemma DueLater(regs: map<Key, Handler>, from: nat, l1: seq<Call>, l2: seq<Call>, k: Key, code: ErrCode)
    requires Due(regs, from, l1, k, code) && l1 <= l2
    ensures Due(regs, from, l2, k, code)
  {
    if k in regs {
      var i :| from <= i < |l1| && Answers(l1, from, i, k, regs[k], code);
      AnswersLater(l1, l2, from, from, i, k, regs[k], code);
    }
  }

  lemma SettledLater(regs: map<Key, Handler>, from: nat, l1: seq<Call>, l2: seq<Call>, p: PollFd)
    requires Settled(regs, from, l1, p) && l1 <= l2
    ensures Settled(regs, from, l2, p)
  {
    forall wt | CalledFor(p, wt)
      ensures Due(regs, from, l2, Key(p.fd, wt), CodeFor(p))
    {
      DueLater(regs, from, l1, l2, Key(p.fd, wt), CodeFor(p));
    }
  }

  lemma SettledBy(regs: map<Key, Handler>, from: nat, log: seq<Call>, p: PollFd)
    requires CalledFor(p, WaitRead) ==> Due(regs, from, log, Key(p.fd, WaitRead), CodeFor(p))
    requires CalledFor(p, WaitWrite) ==> Due(regs, from, log, Key(p.fd, WaitWrite), CodeFor(p))
    requires CalledFor(p, WaitException) ==> Due(regs, from, log, Key(p.fd, WaitException), CodeFor(p))
    ensures Settled(regs, from, log, p)
  {
  }

  // ---------- while one entry is examined ----------

  /** Since `from`, dispatch has only invoked handlers for the entry `p`, for types in `done`, once each and in
      turn. */
  predicate Stage(log: seq<Call>, from: nat, p: PollFd, at: int, done: set<WaitType>) {
    OnlyDispatch(log, from) && OnceInTurn(log, from)
    && forall i :: from <= i < |log| && Direct(log[i]) ==>
         log[i].key.fd == p.fd && log[i].key.wt in done && log[i].status == CodeFor(p) && log[i].revents == p.revents
         && log[i].at == at
  }

  /** Invocations by dispatch up to `l1`, one more after it, and what that handler cancelled. */
  lemma OnlyDispatchMore(l1: seq<Call>, l2: seq<Call>, from: nat)
    requires from <= |l1| < |l2| && l1 <= l2 && OnlyDispatch(l1, from) && Direct(l2[|l1|]) && Following(l2, |l1|)
    ensures OnlyDispatch(l2, from)
  {
  }

  lemma OnlyDispatchCat(l1: seq<Call>, l2: seq<Call>, from: nat)
    requires from <= |l1| && l1 <= l2 && OnlyDispatch(l1, from) && OnlyDispatch(l2, |l1|)
    ensures OnlyDispatch(l2, from)
  {
  }

  /** One more handler invoked, and what its callback cancelled. */
  lemma StageMore(l1: seq<Call>, l2: seq<Call>, from: nat, p: PollFd, at: int, done: set<WaitType>, wt: WaitType)
    requires from <= |l1| < |l2| && l1 <= l2 && Following(l2, |l1|) && Stage(l1, from, p, at, done) && wt !in done
    requires Direct(l2[|l1|]) && l2[|l1|].key == Key(p.fd, wt) && l2[|l1|].status == CodeFor(p)
    requires l2[|l1|].revents == p.revents && l2[|l1|].at == at
    requires forall first :: first in done ==> InTurn(CodeFor(p), first, wt)
    ensures Stage(l2, from, p, at, done + {wt})
  {
    hide Asked;
    OnlyDispatchMore(l1, l2, from);
    forall i | from <= i < |l2| && i != |l1|
      ensures (i < |l1| && l2[i] == l1[i]) || !Direct(l2[i])
    {
    }
  }

  lemma StageWider(log: seq<Call>, from: nat, p: PollFd, at: int, done: set<WaitType>, done': set<WaitType>)
    requires Stage(log, from, p, at, done) && done <= done'
    ensures Stage(log, from, p, at, done')
  {
  }

  /** A registration that vanished before its turn was cancelled. */
  lemma VanishedDue(regs: map<Key, Handler>, from: nat, regs1: map<Key, Handler>, log: seq<Call>, p: PollFd, at: int,
      done: set<WaitType>, k: Key, code: ErrCode)
    requires Accounted(regs, from, regs1, log) && Stage(log, from, p, at, done) && k.wt !in done
    requires k in regs && k in regs1 ==> regs1[k] != regs[k]
    ensures Due(regs, from, log, k, code)
  {
    hide Asked;
    if k in regs {
      var i :| from <= i < |log| && log[i].RunEvent? && log[i].key == k && log[i].hnd == regs[k];
      assert !Direct(log[i]);
      assert Answers(log, from, i, k, regs[k], code);
    }
  }

  /** Invoking what is registered now answers what was registered at the start. */
  lemma AnsweredDue(regs: map<Key, Handler>, from: nat, regs1: map<Key, Handler>, l1: seq<Call>, l2: seq<Call>,
      p: PollFd, at: int, done: set<WaitType>, k: Key, code: ErrCode)
    requires Accounted(regs, from, regs1, l1) && Stage(l1, from, p, at, done) && k.wt !in done
    requires from <= |l1| < |l2| && l1 <= l2 && k in regs1
    requires l2[|l1|].RunEvent? && l2[|l1|].key == k && l2[|l1|].hnd == regs1[k] && l2[|l1|].status == code
    ensures Due(regs, from, l2, k, code)
  {
    hide Asked;
    if k in regs && regs1[k] != regs[k] {
      VanishedDue(regs, from, regs1, l1, p, at, done, k, code);
      DueLater(regs, from, l1, l2, k, code);
    } else if k in regs {
      assert Answers(l2, from, |l1|, k, regs[k], code);
    }
  }

  // ---------- entries still to be examined ----------

  /** An entry for the descriptor with these revents is yet to be looked at. */
  predicate Ahead(polls: seq<PollFd>, from: nat, p: PollFd) {
    exists j :: from <= j < |polls| && polls[j].fd == p.fd && polls[j].revents == p.revents
  }

  /** No entry ahead is lost, and none with revents comes in. */
  ghost predicate AheadKept(polls: seq<PollFd>, from: nat, polls': seq<PollFd>, from': nat) {
    (forall p :: Ahead(polls, from, p) ==> Ahead(polls', from', p))
    && (forall p :: Ahead(polls', from', p) && p.revents != {} ==> Ahead(polls, from, p))
  }

  lemma AheadCallbacks(polls: seq<PollFd>, polls': seq<PollFd>, i: nat)
    requires PollsKept(polls, polls')
    ensures AheadKept(polls, i, polls', i)
  {
  }

  lemma AheadTrans(p0: seq<PollFd>, i0: nat, p1: seq<PollFd>, i1: nat, p2: seq<PollFd>, i2: nat)
    requires AheadKept(p0, i0, p1, i1) && AheadKept(p1, i1, p2, i2)
    ensures AheadKept(p0, i0, p2, i2)
  {
  }

  /** Swap-remove at `i` brings the last entry to `i`, so `i` must not advance. */
  lemma AheadCleanup(io: IoState, fd: int)
    requires HasPoll(io.polls, fd)
    ensures AheadKept(io.polls, FindPoll(io.polls, fd) + 1, Cleanup(io, fd).polls, FindPoll(io.polls, fd))
  {
    var i, n, polls' := FindPoll(io.polls, fd), |io.polls| - 1, Cleanup(io, fd).polls;
    var next := i + 1;
    forall p | Ahead(io.polls, next, p)
      ensures Ahead(polls', i, p)
    {
      var j :| next <= j < |io.polls| && io.polls[j].fd == p.fd && io.polls[j].revents == p.revents;
      assert polls'[if j == n then i else j] == io.polls[j];
    }
    forall p | Ahead(polls', i, p)
      ensures Ahead(io.polls, next, p)
    {
      var j :| i <= j < |polls'| && polls'[j].fd == p.fd && polls'[j].revents == p.revents;
      assert polls'[j] == io.polls[if j == i then n else j];
    }
  }

  /** Line 265. */
  function Cleared(io: IoState, i: nat): IoState
    requires i < |io.polls|
  {
    io.(polls := io.polls[i := io.polls[i].(revents := {})])
  }

  lemma AheadCleared(io: IoState, i: nat)
    requires i < |io.polls|
    ensures AheadKept(io.polls, i + 1, Cleared(io, i).polls, i + 1)
  {
    var next := i + 1;
    forall p
      ensures Ahead(io.polls, next, p) <==> Ahead(Cleared(io, i).polls, next, p)
    {
      assert forall j :: next <= j < |io.polls| ==> Cleared(io, i).polls[j] == io.polls[j];
    }
  }

  /** Looking once more at an entry without revents. */
  lemma AheadBack(polls: seq<PollFd>, i: nat)
    requires i < |polls| ==> polls[i].revents == {}
    ensures AheadKept(polls, i + 1, polls, i)
  {
  }

  // ---------- poll vectors and revents ----------

  lemma ReventsOk(s: Snap, polls': seq<PollFd>)
    requires Ok(s) && SameButRevents(s.io.polls, polls')
    ensures
      var s' := s.(io := s.io.(polls := polls'));
      Ok(s') && Work(s') == Work(s) && Goes(s, s')
      && forall fd :: HasPoll(polls', fd) == HasPoll(s.io.polls, fd)
  {
    hide TimedOk, DelaysOk, TimersDue, LogOk, RanPosts, RanDelays, RanEvents, Accounted, FindPoll, PollsOk;
    ReventsFree(s.io.polls, polls', s.io.regs);
    AccountedSame(s.io.regs, |s.log|, s.log);
  }

  lemma AnswerCall(s: Snap, k: Key, code: ErrCode, at: int, revents: Flags)
    requires Ok(s) && k in s.io.regs
    requires (code == EioOk && PollNval !in revents && Fires(revents, k.wt))
      || (code == EioInvarg && PollNval in revents)
    ensures CallOk(EventCall(s.io, k, code, at, revents, false))
  {
    TimerIn(s.io, k);
  }

  /** What the events of a poll entry say about the registrations of its descriptor. */
  lemma EntryEvents(s: Snap, i: nat)
    requires Ok(s) && i < |s.io.polls|
    ensures
      var fd, events := s.io.polls[i].fd, s.io.polls[i].events;
      && events == EventsOf(s.io.regs, fd) && FindPoll(s.io.polls, fd) == i && events - {PollPri} != {PollErr}
      && (PollIn in events <==> Key(fd, WaitRead) in s.io.regs)
      && (PollOut in events <==> Key(fd, WaitWrite) in s.io.regs)
      && (PollPri in events <==> Key(fd, WaitException) in s.io.regs)
      && (events == {} <==> forall wt :: Key(fd, wt) !in s.io.regs)
  {
    EventsEmptyIff(s.io.regs, s.io.polls[i].fd);
    FindPollIs(s.io.polls, i);
  }

  /** poll() may report POLLHUP, POLLERR and POLLNVAL without being asked. */
  predicate PollReports(events: Flags, revents: Flags) { revents <= events + {PollErr, PollHup, PollNval} }

  /** With such reports, every type that dispatch takes for ready is registered, if and only if there is no
      hang-up on a descriptor that only waits for something else than reading. */
  lemma ReadyIsRegisteredIff(s: Snap, i: nat, revents: Flags)
    requires Ok(s) && i < |s.io.polls| && PollReports(s.io.polls[i].events, revents)
    ensures
      var fd := s.io.polls[i].fd;
      (forall wt :: Fires(revents, wt) ==> Key(fd, wt) in s.io.regs)
      <==> !(PollHup in revents && Key(fd, WaitRead) !in s.io.regs)
  {
    hide FindPoll, HasPoll, TimedOk, DelaysOk, LogOk, Conserved;
    EntryEvents(s, i);
    var fd := s.io.polls[i].fd;
    if PollHup in revents && Key(fd, WaitRead) !in s.io.regs {
      assert Fires(revents, WaitRead);
    } else {
      ReadyFlags(s.io.regs, fd, revents);
    }
  }

  lemma ReadyFlags(regs: map<Key, Handler>, fd: int, revents: Flags)
    requires PollReports(EventsOf(regs, fd), revents) && (PollHup in revents ==> Key(fd, WaitRead) in regs)
    ensures forall wt :: Fires(revents, wt) ==> Key(fd, wt) in regs
  {
  }

  /** pfd_flags: the flag by which line 259 recognises a registered type. */
  function TypeFlag(wt: WaitType): PollFlag {
    match wt
    case WaitRead => PollIn
    case WaitWrite => PollOut
    case WaitException => PollPri
  }

  /** evt_masks of is_top_event_ready. */
  function TopMask(wt: WaitType): Flags {
    match wt
    case WaitRead => {PollIn, PollHup, PollRdnorm, PollRdband, PollErr}
    case WaitWrite => {PollOut, PollWrnorm, PollWrband, PollErr}
    case WaitException => {PollPri}
  }

  /** is_top_event_ready */
  predicate TopReady(io: IoState) {
    io.timed != []
    && var k, j := io.timed[0].item.key, FindPoll(io.polls, io.timed[0].item.key.fd);
    j < |io.polls| && io.polls[j].revents * TopMask(k.wt) != {}
  }

  /** A deadline has passed, and it is not that of an event that is ready anyway. */
  predicate Expired(s: Snap) {
    var (d, isEvent) := NextDeadline(s.delays, s.io.timed);
    d != -1 && d <= s.now && !(isEvent && TopReady(s.io))
  }

  /** Line 343 compares elapsed time and delay; that is the same as comparing clock and deadline. */
  lemma ExpiredIff(s: Snap, delay: int, elapsed: int)
    requires Ok(s) && elapsed >= 0 && delay == PollDelay(NextDeadline(s.delays, s.io.timed).0, s.now - elapsed)
    ensures
      var (d, isEvent) := NextDeadline(s.delays, s.io.timed);
      && (Expired(s) <==> elapsed >= delay && delay != -1 && (!isEvent || !TopReady(s.io)))
      && (elapsed >= delay && delay != -1 ==> d != -1 && d <= s.now)
  {
    hide TopReady, NextDeadline;
    NextDeadlineLeast(s);
  }

  /** Nothing in the vector calls for a handler. */
  predicate NothingCalled(polls: seq<PollFd>) {
    forall i, wt :: 0 <= i < |polls| ==> !CalledFor(polls[i], wt)
  }

  /** When nothing in the vector calls for a handler, an overdue event with the least deadline is timed out if
      and only if its descriptor is not reported with POLLERR: is_top_event_ready takes that for a ready read or
      write, dispatch_ready_events does not.  Otherwise nothing at all happens, round after round. */
  lemma StarvedIff(s: Snap)
    requires Ok(s) && NothingCalled(s.io.polls)
    requires var (d, isEvent) := NextDeadline(s.delays, s.io.timed); isEvent && d != -1 && d <= s.now
    ensures s.io.timed != [] && HasPoll(s.io.polls, s.io.timed[0].item.key.fd)
    ensures
      var k := s.io.timed[0].item.key;
      Expired(s) <==> k.wt == WaitException || PollErr !in s.io.polls[FindPoll(s.io.polls, k.fd)].revents
  {
    hide HeapOrdered, Conserved, DelaysOk, LogOk, NoIdle, TimersDue, DistinctKeys;
    NextDeadlineLeast(s);
    var k := s.io.timed[0].item.key;
    assert s.io.timed[0] in s.io.timed;
    var i := FindPoll(s.io.polls, k.fd);
    TopFlags(s.io.polls[i].revents, k.wt);
    assert !CalledFor(s.io.polls[i], k.wt);
  }

  lemma TopFlags(revents: Flags, wt: WaitType)
    ensures revents * TopMask(wt) != {} <==> Fires(revents, wt) || (PollErr in revents && wt != WaitException)
  {
    var m := revents * TopMask(wt);
    match wt
    case WaitRead =>
      assert PollIn in m || PollHup in m || PollRdnorm in m || PollRdband in m || PollErr in m || m == {};
    case WaitWrite =>
      assert PollOut in m || PollWrnorm in m || PollWrband in m || PollErr in m || m == {};
    case WaitException =>
      assert PollPri in m || m == {};
  }

  // ---------- examining one entry ----------

  /** Without removals an entry keeps its index, and without new entries the tree is the same. */
  lemma SamePlace(s0: Snap, s1: Snap, i: nat)
    requires Steps(s0, s1) && |s1.removed| == |s0.removed| && i < |s0.io.polls|
    ensures PollsKept(s0.io.polls, s1.io.polls) && i < |s1.io.polls| && s1.io.polls[i].fd == s0.io.polls[i].fd
    ensures s0.log <= s1.log && Accounted(s0.io.regs, |s0.log|, s1.io.regs, s1.log)
    ensures |s1.io.polls| == |s0.io.polls| ==> s1.shape == s0.shape
  {
  }

  /** The state in which an entry is left, and the index to go on with (lines 265-268 and 292-297); `w` is the
      tree if the descriptor's node is removed. */
  function Departed(s1: Snap, i: nat, w: RbShape.Shape): (Snap, nat)
    requires i < |s1.io.polls| && HasPoll(s1.io.polls, s1.io.polls[i].fd)
  {
    if s1.io.polls[i].events == {} then (Cleaned(s1, s1.io.polls[i].fd, w).(open := {}), i)
    else (s1.(open := {}), i + 1)
  }

  ghost predicate TreeShrinks(s: Snap, i: nat, w: RbShape.Shape)
    requires i < |s.io.polls|
  {
    s.io.polls[i].events == {} ==> Registry.KeepsNodes(s.shape, w, Some(s.io.polls[i].fd))
  }

  const AllTypes := {WaitRead, WaitWrite, WaitException}

  /** `s1` is the state after the callbacks for entry `i` of `s`, which may be the same state. */
  ghost predicate Answered(s: Snap, s1: Snap, i: nat, at: int)
    requires i < |s.io.polls|
  {
    var p := s.io.polls[i];
    && Ok(s1) && Steps(s.(open := {p.fd}), s1) && |s1.removed| == |s.removed|
    && Settled(s.io.regs, |s.log|, s1.log, p) && Stage(s1.log, |s.log|, p, at, AllTypes)
  }

  /** As long as no descriptor is removed, entries keep their index. */
  predicate Placed(a: Snap, b: Snap) {
    a.removed <= b.removed
    && (|b.removed| == |a.removed| ==>
          |a.io.polls| <= |b.io.polls| && forall j :: 0 <= j < |a.io.polls| ==> b.io.polls[j].fd == a.io.polls[j].fd)
  }

  lemma PlacedTrans(a: Snap, b: Snap, c: Snap)
    requires Placed(a, b) && Placed(b, c)
    ensures Placed(a, c)
  {
  }

  lemma StepsPlaced(a: Snap, b: Snap)
    requires Steps(a, b)
    ensures Placed(a, b)
  {
  }

  lemma DepartedPlaced(s: Snap, s0: Snap, s1: Snap, s2: Snap, i: nat, w: RbShape.Shape)
    requires s0 == s.(open := s0.open) && Placed(s0, s1)
    requires s2 == s1.(io := s2.io) && SameButRevents(s1.io.polls, s2.io.polls)
    requires i < |s2.io.polls| && HasPoll(s2.io.polls, s2.io.polls[i].fd)
    ensures Placed(s, Departed(s2, i, w).0)
  {
  }

  /** `s3` is the state when entry `i` of `s` has been dealt with: everything it called for is answered,
      dispatch has invoked nothing else, and the other entries are still ahead. */
  ghost predicate Examined(s: Snap, s3: Snap, i: nat, next: nat, at: int)
    requires i < |s.io.polls|
  {
    var p := s.io.polls[i];
    && Ok(s3) && AtRest(s3) && Goes(s, s3) && Placed(s, s3) && i <= next <= |s3.io.polls|
    && Settled(s.io.regs, |s.log|, s3.log, p) && Stage(s3.log, |s.log|, p, at, AllTypes)
    && AheadKept(s.io.polls, i + 1, s3.io.polls, next)
  }

  /** Either work shrank, or nothing happened and the index advances. */
  ghost predicate Progress(s: Snap, s3: Snap, i: nat, next: nat) {
    Work(s3) < Work(s) || (s3 == s && next == i + 1)
  }

  lemma DepartedOk(s1: Snap, i: nat, w: RbShape.Shape)
    requires Ok(s1) && i < |s1.io.polls| && s1.open == {s1.io.polls[i].fd} && TreeShrinks(s1, i, w)
    ensures HasPoll(s1.io.polls, s1.io.polls[i].fd) && FindPoll(s1.io.polls, s1.io.polls[i].fd) == i
    ensures
      var (s3, next) := Departed(s1, i, w);
      && Ok(s3) && Work(s3) == Work(s1) && Goes(s1.(open := {}), s3) && s3.log == s1.log && next <= |s3.io.polls|
      && AheadKept(s1.io.polls, i + 1, s3.io.polls, next)
  {
    hide Ok, Work, FindPoll, HasPoll, EventsOf, Steps, AheadKept, Goes;
    var fd := s1.io.polls[i].fd;
    EntryEvents(s1, i);
    HasPollIff(s1.io.polls, fd);
    assert s1.open == {} + {fd};
    if s1.io.polls[i].events == {} {
      CleanedOk(s1, fd, w, {});
      StepsGoes(s1, Cleaned(s1, fd, w));
      AheadCleanup(s1.io, fd);
    } else {
      Closed(s1, fd, {});
      AheadSame(s1.io.polls, i + 1);
      GoesRefl(s1);
    }
    GoesReopen(s1, Departed(s1, i, w).0, {});
  }

  lemma AheadSame(polls: seq<PollFd>, i: nat)
    ensures AheadKept(polls, i, polls, i)
  {
  }

  lemma GoesReopen(a: Snap, b: Snap, open: set<int>)
    requires Goes(a, b.(open := a.open))
    ensures Goes(a.(open := open), b)
  {
  }

  /** An entry that was not idle and called for something has been answered by some callback. */
  lemma InvalidNotIdle(s: Snap, i: nat)
    requires Ok(s) && s.open == {} && i < |s.io.polls| && PollNval in s.io.polls[i].revents
    ensures !Settled(s.io.regs, |s.log|, s.log, s.io.polls[i])
  {
  }

  lemma IdleNever(s: Snap, i: nat)
    requires Ok(s) && s.open == {} && i < |s.io.polls|
    ensures s.io.polls[i].events != {}
  {
  }

  lemma StepsFrames(a: Snap, b: Snap)
    requires Steps(a, b)
    ensures b.open == a.open && b.running == a.running && b.heldDelays == a.heldDelays && b.heldEvents == a.heldEvents
  {
  }

  lemma GoesReopened(s: Snap, s0: Snap, s1: Snap, s3: Snap)
    requires s0 == s.(open := s0.open) && Goes(s0, s1) && Goes(s1.(open := {}), s3)
    ensures Goes(s, s3)
  {
  }

  lemma ReadyExamined(s: Snap, s1: Snap, i: nat, at: int, w: RbShape.Shape)
    requires Ok(s) && AtRest(s) && i < |s.io.polls| && Answered(s, s1, i, at)
    ensures i < |s1.io.polls| && s1.io.polls[i].fd == s.io.polls[i].fd && HasPoll(s1.io.polls, s1.io.polls[i].fd)
    ensures Ok(s1) && s1.open == {s.io.polls[i].fd}
    ensures TreeShrinks(s1, i, w) ==>
      var (s3, next) := Departed(s1, i, w);
      && Examined(s, s3, i, next, at) && Work(s3) == Work(s1)
      && (s1 == s.(open := {s.io.polls[i].fd}) ==> s3 == s && next == i + 1)
  {
    hide Ok, Work, FindPoll, Steps, AheadKept, Settled, Stage, Goes, PollsKept, Accounted, TreeShrinks, Placed;
    var s0 := s.(open := {s.io.polls[i].fd});
    SamePlace(s0, s1, i);
    StepsFrames(s0, s1);
    HasPollIff(s1.io.polls, s1.io.polls[i].fd);
    if TreeShrinks(s1, i, w) {
      DepartedOk(s1, i, w);
      var (s3, next) := Departed(s1, i, w);
      AheadCallbacks(s.io.polls, s1.io.polls, i + 1);
      AheadTrans(s.io.polls, i + 1, s1.io.polls, i + 1, s3.io.polls, next);
      StepsGoes(s0, s1);
      GoesReopened(s, s0, s1, s3);
      StepsPlaced(s0, s1);
      DepartedPlaced(s, s0, s1, s1, i, w);
      if s1 == s0 {
        IdleNever(s, i);
      }
    }
  }

  /** For an invalid descriptor the revents are cleared and the index stays. */
  lemma InvalidExamined(s: Snap, s1: Snap, i: nat, at: int, w: RbShape.Shape)
    requires Ok(s) && AtRest(s) && i < |s.io.polls| && Answered(s, s1, i, at) && PollNval in s.io.polls[i].revents
    ensures i < |s1.io.polls| && s1.open == {s.io.polls[i].fd}
    ensures
      var s2 := s1.(io := Cleared(s1.io, i));
      && i < |s2.io.polls| && s2.io.polls[i].fd == s.io.polls[i].fd && HasPoll(s2.io.polls, s2.io.polls[i].fd) && Ok(s2)
      && (TreeShrinks(s2, i, w) ==>
            Examined(s, Departed(s2, i, w).0, i, i, at) && Work(Departed(s2, i, w).0) == Work(s1))
    ensures s1 != s.(open := {s.io.polls[i].fd})
  {
    hide Ok, Work, FindPoll, Steps, AheadKept, Settled, Stage, Goes, PollsKept, Accounted, TreeShrinks, Placed;
    var s0 := s.(open := {s.io.polls[i].fd});
    SamePlace(s0, s1, i);
    StepsFrames(s0, s1);
    var s2 := s1.(io := Cleared(s1.io, i));
    ReventsOk(s1, s2.io.polls);
    HasPollIff(s2.io.polls, s2.io.polls[i].fd);
    if TreeShrinks(s2, i, w) {
      DepartedOk(s2, i, w);
      var (s3, next) := Departed(s2, i, w);
      InvalidAhead(s.io.polls, s1.io, s3.io.polls, i, next);
      StepsGoes(s0, s1);
      GoesTrans(s0, s1, s2);
      GoesReopened(s, s0, s2, s3);
      StepsPlaced(s0, s1);
      DepartedPlaced(s, s0, s1, s2, i, w);
    }
    if s1 == s0 {
      InvalidNotIdle(s, i);
    }
  }

  lemma InvalidAhead(polls: seq<PollFd>, io: IoState, polls3: seq<PollFd>, i: nat, next: nat)
    requires i < |polls| && i < |io.polls| && PollsKept(polls, io.polls)
      && (next == i || (next == i + 1 && polls3 == Cleared(io, i).polls))
    requires AheadKept(Cleared(io, i).polls, i + 1, polls3, next)
    ensures AheadKept(polls, i + 1, polls3, i)
  {
    hide AheadKept, PollsKept;
    AheadCallbacks(polls, io.polls, i + 1);
    AheadCleared(io, i);
    AheadTrans(polls, i + 1, io.polls, i + 1, Cleared(io, i).polls, i + 1);
    AheadTrans(polls, i + 1, Cleared(io, i).polls, i + 1, polls3, next);
    if next == i + 1 {
      AheadBack(polls3, i);
      AheadTrans(polls, i + 1, polls3, i + 1, polls3, i);
    }
  }

  // ---------- the loop over the vector ----------

  /** Every invocation by dispatch since `from` is for an entry of the vector, with that entry's revents, and
      measures time from `at`. */
  predicate FromEntries(log: seq<Call>, from: nat, polls: seq<PollFd>, at: int) {
    forall i :: from <= i < |log| && Direct(log[i]) ==> log[i].at == at && Listed(polls, log[i].key.fd, log[i].revents)
  }

  /** No handler has been invoked yet for descriptors with revents that are still ahead. */
  ghost predicate Untouched(log: seq<Call>, from: nat, polls0: seq<PollFd>, polls: seq<PollFd>, i: nat) {
    forall q :: Ahead(polls, i, q) && q.revents != {} ==>
      Listed(polls0, q.fd, q.revents) && forall m :: from <= m < |log| && Direct(log[m]) ==> log[m].key.fd != q.fd
  }

  /** Dispatch has invoked handlers in the order of the vector. */
  predicate InVectorOrder(log: seq<Call>, from: nat, polls: seq<PollFd>) {
    forall m, n :: from <= m < n < |log| && Direct(log[m]) && Direct(log[n]) ==>
      FindPoll(polls, log[m].key.fd) <= FindPoll(polls, log[n].key.fd)
  }

  /** So it has done up to entry `i`, if no descriptor was removed. */
  predicate OrderedUpTo(s: Snap, s1: Snap, i: nat) {
    Placed(s, s1)
    && (|s1.removed| == |s.removed| ==>
          && InVectorOrder(s1.log, |s.log|, s.io.polls)
          && forall m :: |s.log| <= m < |s1.log| && Direct(s1.log[m]) ==> FindPoll(s.io.polls, s1.log[m].key.fd) <= i)
  }

  lemma OrderedNext(s: Snap, s1: Snap, s2: Snap, i: nat, next: nat, at: int)
    requires OrderedUpTo(s, s1, i) && i < |s1.io.polls| && s.log <= s1.log && Ok(s1) && Examined(s1, s2, i, next, at)
    ensures OrderedUpTo(s, s2, next)
  {
    hide Ok, AtRest, Goes, Settled, AheadKept, FindPoll;
    ExaminedLogs(s1, s2, i, next, at);
    PlacedTrans(s, s1, s2);
    if |s2.removed| == |s.removed| {
      var p, l1, l2 := s1.io.polls[i], s1.log, s2.log;
      EntryRank(s, s1, i);
      forall m | |s.log| <= m < |l1|
        ensures l2[m] == l1[m]
      {
      }
      assert forall m :: |l1| <= m < |l2| && Direct(l2[m]) ==> l2[m].key.fd == p.fd;
    }
  }

  /** Where the entry at `i` was in the beginning. */
  lemma EntryRank(s: Snap, s1: Snap, i: nat)
    requires Placed(s, s1) && |s1.removed| == |s.removed| && Ok(s1) && i < |s1.io.polls|
    ensures FindPoll(s.io.polls, s1.io.polls[i].fd) <= i
    ensures forall fd :: FindPoll(s.io.polls, fd) <= i ==>
      FindPoll(s.io.polls, fd) <= FindPoll(s.io.polls, s1.io.polls[i].fd)
  {
    hide TimedOk, DelaysOk, TimersDue, Conserved, LogOk, NoIdle;
    if i < |s.io.polls| {
      FindPollIs(s.io.polls, i);
    }
  }

  /** Up to entry `i`: each of the first entries is settled or still ahead, and dispatch has invoked nothing but
      what these entries call for, once each. */
  ghost predicate Dispatched(s: Snap, s1: Snap, i: nat, at: int) {
    && (forall p :: p in s.io.polls ==> Settled(s.io.regs, |s.log|, s1.log, p) || Ahead(s1.io.polls, i, p))
    && OnlyDispatch(s1.log, |s.log|) && OnceInTurn(s1.log, |s.log|) && FromEntries(s1.log, |s.log|, s.io.polls, at)
    && Untouched(s1.log, |s.log|, s.io.polls, s1.io.polls, i) && OrderedUpTo(s, s1, i)
  }

  /** What dispatch has done when it returns. */
  ghost predicate DispatchDone(s: Snap, s1: Snap, at: int) {
    && s.log <= s1.log && (forall p :: p in s.io.polls ==> Settled(s.io.regs, |s.log|, s1.log, p))
    && OnlyDispatch(s1.log, |s.log|) && OnceInTurn(s1.log, |s.log|) && FromEntries(s1.log, |s.log|, s.io.polls, at)
    && (|s1.removed| == |s.removed| ==> InVectorOrder(s1.log, |s.log|, s.io.polls))
  }

  lemma DispatchStarts(s: Snap, at: int)
    ensures Dispatched(s, s, 0, at)
  {
  }

  lemma DispatchEnds(s: Snap, s1: Snap, i: nat, at: int)
    requires Dispatched(s, s1, i, at) && i >= |s1.io.polls| && Goes(s, s1)
    ensures DispatchDone(s, s1, at)
  {
  }

  lemma DispatchStep(s: Snap, s1: Snap, s2: Snap, i: nat, next: nat, at: int)
    requires Dispatched(s, s1, i, at) && Goes(s, s1) && i < |s1.io.polls| && Ok(s1) && Examined(s1, s2, i, next, at)
    ensures Dispatched(s, s2, next, at)
  {
    hide *;
    ExaminedLogs(s1, s2, i, next, at);
    DispatchedLogs(s, s1, i, at);
    GoesLogs(s, s1);
    var p := s1.io.polls[i];
    OthersAhead(s1, i);
    StepLog(s1.log, s2.log, |s.log|, s.io.polls, s1.io.polls, i, p, at);
    StepUntouched(s1.log, s2.log, |s.log|, s.io.polls, s1.io.polls, s2.io.polls, i, next, p, at);
    forall q | q in s.io.polls
      ensures Settled(s.io.regs, |s.log|, s2.log, q) || Ahead(s2.io.polls, next, q)
    {
      StepSettled(s, s1, s2, i, next, at, q);
    }
    OrderedNext(s, s1, s2, i, next, at);
    DispatchedBy(s, s2, next, at);
  }

  lemma ExaminedLogs(s1: Snap, s2: Snap, i: nat, next: nat, at: int)
    requires i < |s1.io.polls| && Examined(s1, s2, i, next, at)
    ensures s1.log <= s2.log && LogOk(s2.log) && Stage(s2.log, |s1.log|, s1.io.polls[i], at, AllTypes)
    ensures Settled(s1.io.regs, |s1.log|, s2.log, s1.io.polls[i]) && AheadKept(s1.io.polls, i + 1, s2.io.polls, next)
    ensures Placed(s1, s2) && i <= next
  {
  }

  lemma DispatchedLogs(s: Snap, s1: Snap, i: nat, at: int)
    requires Dispatched(s, s1, i, at)
    ensures OnlyDispatch(s1.log, |s.log|) && OnceInTurn(s1.log, |s.log|) && FromEntries(s1.log, |s.log|, s.io.polls, at)
    ensures Untouched(s1.log, |s.log|, s.io.polls, s1.io.polls, i) && OrderedUpTo(s, s1, i)
    ensures forall p :: p in s.io.polls ==> Settled(s.io.regs, |s.log|, s1.log, p) || Ahead(s1.io.polls, i, p)
  {
  }

  lemma DispatchedBy(s: Snap, s1: Snap, i: nat, at: int)
    requires OnlyDispatch(s1.log, |s.log|) && OnceInTurn(s1.log, |s.log|)
    requires FromEntries(s1.log, |s.log|, s.io.polls, at)
    requires Untouched(s1.log, |s.log|, s.io.polls, s1.io.polls, i) && OrderedUpTo(s, s1, i)
    requires forall p :: p in s.io.polls ==> Settled(s.io.regs, |s.log|, s1.log, p) || Ahead(s1.io.polls, i, p)
    ensures Dispatched(s, s1, i, at)
  {
  }

  lemma GoesLogs(s: Snap, s1: Snap)
    requires Goes(s, s1)
    ensures s.log <= s1.log && Accounted(s.io.regs, |s.log|, s1.io.regs, s1.log)
  {
  }

  /** Descriptors occur once in the vector, so no later entry is for the same one. */
  lemma OthersAhead(s: Snap, i: nat)
    requires Ok(s) && i < |s.io.polls|
    ensures forall q :: Ahead(s.io.polls, i + 1, q) ==> q.fd != s.io.polls[i].fd && Ahead(s.io.polls, i, q)
  {
  }

  /** An invocation by dispatch needs a reason in the revents. */
  lemma DirectHasReason(log: seq<Call>, m: nat)
    requires LogOk(log) && m < |log| && Direct(log[m])
    ensures log[m].revents != {}
  {
  }

  lemma StepLog(l1: seq<Call>, l2: seq<Call>, from: nat, polls0: seq<PollFd>, polls: seq<PollFd>, i: nat, p: PollFd,
      at: int)
    requires from <= |l1| && l1 <= l2 && LogOk(l2) && Stage(l2, |l1|, p, at, AllTypes) && i < |polls| && p == polls[i]
    requires OnlyDispatch(l1, from) && OnceInTurn(l1, from) && FromEntries(l1, from, polls0, at)
    requires Untouched(l1, from, polls0, polls, i)
    ensures OnlyDispatch(l2, from) && OnceInTurn(l2, from) && FromEntries(l2, from, polls0, at)
  {
    hide Asked;
    OnlyDispatchCat(l1, l2, from);
    assert Ahead(polls, i, p);
    forall m | |l1| <= m < |l2| && Direct(l2[m])
      ensures p.revents != {} && Listed(polls0, p.fd, p.revents)
      ensures forall m' :: from <= m' < |l1| && Direct(l1[m']) ==> l1[m'].key != l2[m].key
    {
      DirectHasReason(l2, m);
    }
    forall m | from <= m < |l1|
      ensures l2[m] == l1[m]
    {
    }
  }

  lemma StepUntouched(l1: seq<Call>, l2: seq<Call>, from: nat, polls0: seq<PollFd>, polls: seq<PollFd>,
      polls2: seq<PollFd>, i: nat, next: nat, p: PollFd, at: int)
    requires from <= |l1| && l1 <= l2 && Stage(l2, |l1|, p, at, AllTypes) && Untouched(l1, from, polls0, polls, i)
    requires AheadKept(polls, i + 1, polls2, next)
    requires forall q :: Ahead(polls, i + 1, q) ==> q.fd != p.fd && Ahead(polls, i, q)
    ensures Untouched(l2, from, polls0, polls2, next)
  {
  }

  lemma StepSettled(s: Snap, s1: Snap, s2: Snap, i: nat, next: nat, at: int, q: PollFd)
    requires i < |s1.io.polls| && s.log <= s1.log <= s2.log && Accounted(s.io.regs, |s.log|, s1.io.regs, s1.log)
    requires OnlyDispatch(s1.log, |s.log|) && Untouched(s1.log, |s.log|, s.io.polls, s1.io.polls, i)
    requires Settled(s.io.regs, |s.log|, s1.log, q) || Ahead(s1.io.polls, i, q)
    requires Settled(s1.io.regs, |s1.log|, s2.log, s1.io.polls[i]) && AheadKept(s1.io.polls, i + 1, s2.io.polls, next)
    ensures Settled(s.io.regs, |s.log|, s2.log, q) || Ahead(s2.io.polls, next, q)
  {
    hide Settled, AheadKept, Accounted, OnlyDispatch, Untouched;
    if Settled(s.io.regs, |s.log|, s1.log, q) {
      SettledLater(s.io.regs, |s.log|, s1.log, s2.log, q);
    } else {
      var j :| i <= j < |s1.io.polls| && s1.io.polls[j].fd == q.fd && s1.io.polls[j].revents == q.revents;
      if j == i {
        SettledNow(s.io.regs, |s.log|, s1.io.regs, s1.log, s2.log, s.io.polls, s1.io.polls, i, q);
      } else {
        StillAhead(s1.io.polls, i + 1, s2.io.polls, next, q, j);
      }
    }
  }

  lemma StillAhead(polls: seq<PollFd>, i: nat, polls': seq<PollFd>, i': nat, q: PollFd, j: nat)
    requires AheadKept(polls, i, polls', i') && i <= j < |polls| && polls[j].fd == q.fd && polls[j].revents == q.revents
    ensures Ahead(polls', i', q)
  {
  }

  /** Settling an entry with regard to what is registered now settles it with regard to the start: what has gone
      since was not invoked by dispatch, so it was cancelled. */
  lemma SettledNow(regs: map<Key, Handler>, from: nat, regs1: map<Key, Handler>, l1: seq<Call>, l2: seq<Call>,
      polls0: seq<PollFd>, polls: seq<PollFd>, i: nat, q: PollFd)
    requires from <= |l1| && l1 <= l2 && Accounted(regs, from, regs1, l1) && OnlyDispatch(l1, from)
    requires Untouched(l1, from, polls0, polls, i) && i < |polls| && polls[i].fd == q.fd
      && polls[i].revents == q.revents
    requires Settled(regs1, |l1|, l2, polls[i])
    ensures Settled(regs, from, l2, q)
  {
    forall wt | CalledFor(q, wt)
      ensures Due(regs, from, l2, Key(q.fd, wt), CodeFor(q))
    {
      assert Ahead(polls, i, q) && q.revents != {};
      KeyDueNow(regs, from, regs1, l1, l2, Key(q.fd, wt), CodeFor(q));
    }
  }

  lemma KeyDueNow(regs: map<Key, Handler>, from: nat, regs1: map<Key, Handler>, l1: seq<Call>, l2: seq<Call>, k: Key,
      code: ErrCode)
    requires from <= |l1| && l1 <= l2 && Accounted(regs, from, regs1, l1) && OnlyDispatch(l1, from)
    requires forall m :: from <= m < |l1| && Direct(l1[m]) ==> l1[m].key.fd != k.fd
    requires Due(regs1, |l1|, l2, k, code)
    ensures Due(regs, from, l2, k, code)
  {
    if k in regs {
      if k in regs1 && regs1[k] == regs[k] {
        var m :| |l1| <= m < |l2| && Answers(l2, |l1|, m, k, regs[k], code);
        AnswersLater(l2, l2, |l1|, from, m, k, regs[k], code);
      } else {
        var m :| from <= m < |l1| && l1[m].RunEvent? && l1[m].key == k && l1[m].hnd == regs[k];
        assert Answers(l1, from, m, k, regs[k], code);
        AnswersLater(l1, l2, from, from, m, k, regs[k], code);
      }
    }
  }
}
