/** What the phases of one round of iosvc_run do to the state of the loop (src/io_service.c). */
module LoopRounds {
  import opened IoTypes
  import opened DeadlineHeap
  import opened IoModel
  import opened Weights
  import opened LoopState
  import RbShape

  /** No handler is half run and no descriptor half served. */
  ghost predicate AtRest(s: Snap) {
    s.open == {} && s.running == 0 && s.heldDelays == multiset{} && s.heldEvents == multiset{}
  }

  /** What every phase of a round other than stopping keeps. */
  ghost predicate Goes(a: Snap, b: Snap) {
    StatusSteps(a.status, b.status) && a.now <= b.now && a.log <= b.log && a.posts <= b.posts
    && NoStops(b.log, |a.log|) && Accounted(a.io.regs, |a.log|, b.io.regs, b.log)
  }

  lemma GoesRefl(a: Snap)
    ensures Goes(a, a)
  {
  }

  lemma GoesTrans(a: Snap, b: Snap, c: Snap)
    requires Goes(a, b) && Goes(b, c)
    ensures Goes(a, c)
  {
  }

  lemma StepsGoes(a: Snap, b: Snap)
    requires Steps(a, b)
    ensures Goes(a, b)
  {
  }

  // ---------- posted handlers ----------

  /** The front handler is invoked while it is still in the buffer. */
  function Started(s: Snap): Snap
    requires s.sync != []
  {
    s.(log := s.log + [RunPost(s.sync[0])], running := 1)
  }

  lemma StartedOk(s: Snap)
    requires Ok(s) && s.running == 0 && s.sync != []
    ensures Ok(Started(s)) && Goes(s, Started(s)) && Work(Started(s)) == Work(s) - Weight(s.sync[0])
  {
    hide IoInv, NoIdle, DelaysOk, TimersDue, LogOk, RanPosts, RanDelays, RanEvents, Sum, Accounted, Weight;
    var s' := Started(s);
    RanPush(s.log, RunPost(s.sync[0]));
    LogPush(s.log, RunPost(s.sync[0]));
    assert s.sync[0..] == [s.sync[0]] + s.sync[1..];
    StartedWork(s);
    AccountedSame(s.io.regs, |s.log|, s'.log);
  }

  lemma StartedWork(s: Snap)
    requires s.running == 0 && s.sync != []
    ensures Work(Started(s)) == Work(s) - Weight(s.sync[0])
  {
    hide Sum, Weight;
    var h := s.sync[0];
    assert s.sync[0..] == [h] + s.sync[1..];
    assert multiset([h] + s.sync[1..]) - multiset{h} == multiset(s.sync[1..]);
    SumRemove(multiset(s.sync[0..]), h, Weight);
  }

  lemma AccountedSame(regs: map<Key, Handler>, from: nat, log: seq<Call>)
    ensures Accounted(regs, from, regs, log)
  {
  }

  /** The front is popped only after its handler has returned. */
  function Popped(s: Snap): Snap
    requires s.sync != []
  {
    s.(sync := s.sync[1..], running := 0)
  }

  lemma PoppedOk(s: Snap)
    requires Ok(s) && s.running == 1
    ensures s.sync != [] && Ok(Popped(s)) && Goes(s, Popped(s)) && Work(Popped(s)) == Work(s)
  {
    hide IoInv, NoIdle, DelaysOk, TimersDue, LogOk, RanPosts, RanDelays, RanEvents, Sum, Accounted;
    assert s.sync[1..][0..] == s.sync[1..];
    AccountedSame(s.io.regs, |s.log|, s.log);
  }

  // ---------- deadlines ----------

  /** next_deadline: the least deadline of both heaps, -1 if there is none, and whether it belongs to an event. */
  function NextDeadline<T, U>(delays: seq<Entry<T>>, timed: seq<Entry<U>>): (int, bool) {
    var deadline := if delays != [] then delays[0].deadline else -1;
    if timed != [] && (deadline == -1 || timed[0].deadline < deadline) then (timed[0].deadline, true)
    else (deadline, false)
  }

  /** Only deadlines matter. */
  lemma NextDeadlineSame<T, U, V>(delays: seq<Entry<T>>, timed: seq<Entry<U>>, timed': seq<Entry<V>>)
    requires |timed'| == |timed| && forall i :: 0 <= i < |timed| ==> timed'[i].deadline == timed[i].deadline
    ensures NextDeadline(delays, timed') == NextDeadline(delays, timed)
  {
  }

  ghost predicate LeastOfAll(delays: seq<Entry<Delayed>>, timed: seq<Entry<Timer>>, d: int) {
    (forall e :: e in delays ==> d <= e.deadline) && (forall e :: e in timed ==> d <= e.deadline)
  }

  /** There is no deadline exactly when both heaps are empty; otherwise it is the least of all, and a delayed handler
      goes before an event with the same deadline. */
  lemma NextDeadlineLeast(s: Snap)
    requires Ok(s)
    ensures
      var (d, isEvent) := NextDeadline(s.delays, s.io.timed);
      && (d == -1 <==> s.delays == [] && s.io.timed == [])
      && (d != -1 ==> d >= 0 && LeastOfAll(s.delays, s.io.timed, d))
      && (isEvent <==> s.io.timed != [] && (s.delays == [] || s.io.timed[0].deadline < s.delays[0].deadline))
      && (d != -1 && isEvent ==> s.io.timed != [] && d == s.io.timed[0].deadline)
      && (d != -1 && !isEvent ==> s.delays != [] && d == s.delays[0].deadline)
  {
    if s.delays != [] {
      assert s.delays[0] in s.delays;
    }
    if s.io.timed != [] {
      assert s.io.timed[0] in s.io.timed;
    }
    forall e | e in s.delays
      ensures s.delays[0].deadline <= e.deadline
    {
      var i :| 0 <= i < |s.delays| && s.delays[i] == e;
      TopIsLeast(s.delays, i);
    }
    forall e | e in s.io.timed
      ensures s.io.timed[0].deadline <= e.deadline
    {
      var i :| 0 <= i < |s.io.timed| && s.io.timed[i] == e;
      TopIsLeast(s.io.timed, i);
    }
  }

  /** Lines 326-328: how long poll() may block. */
  function PollDelay(deadline: int, now: int): int {
    if deadline == -1 then -1 else if deadline > now then deadline - now else 0
  }

  const INT_MAX := 0x7fff_ffff

  /** The delay never exceeds what some waiting entry asked for, so the cast to int loses nothing; poll()
      blocks for ever exactly when nothing has a deadline. */
  lemma PollDelayBounded(s: Snap)
    requires Ok(s)
    ensures
      var delay := PollDelay(NextDeadline(s.delays, s.io.timed).0, s.now);
      && (delay == -1 <==> s.delays == [] && s.io.timed == [])
      && -1 <= delay
      && (delay > 0 ==>
            (exists e :: e in s.delays && delay <= e.item.ms) || (exists e :: e in s.io.timed && delay <= e.item.ms))
      && ((forall e :: e in s.delays ==> e.item.ms <= INT_MAX) && (forall e :: e in s.io.timed ==> e.item.ms <= INT_MAX)
          ==> delay <= INT_MAX)
  {
    NextDeadlineLeast(s);
    var (d, isEvent) := NextDeadline(s.delays, s.io.timed);
    if d != -1 {
      if isEvent {
        assert s.io.timed[0] in s.io.timed;
      } else {
        assert s.delays[0] in s.delays;
      }
    }
  }

  /** A logged invocation for which iosvc_dequeue or stop_handler has measured the remaining time. */
  predicate Measured(c: Call) {
    c.RunEvent? && c.timer.Some? && (c.status == EioOk || c.status == EioInvarg || c.status == EioStopped)
  }

  /** Of every such invocation in every run: the remaining time reported is within what was asked for if and
      only if the event was registered no later than the clock reading from which it is measured. */
  lemma RemainingBoundedIff(s: Snap, i: nat)
    requires Ok(s) && i < |s.log| && Measured(s.log[i]) && s.log[i].timer.value.item.ms >= 0
    ensures
      var c := s.log[i];
      && c.remaining.Some? && 0 <= c.remaining.value
      && (c.remaining.value > 0 ==> c.at + c.remaining.value == c.timer.value.deadline)
      && (c.remaining.value == 0 ==> c.timer.value.deadline <= c.at)
      && (c.remaining.value <= c.timer.value.item.ms <==> c.timer.value.item.since <= c.at)
  {
    assert CallOk(s.log[i]);
  }

  /** An invocation for one of these timers is told a time within what was asked for. */
  predicate InTime(c: Call, timed: seq<Entry<Timer>>) {
    c.RunEvent? && c.timer.Some? && c.timer.value in timed && c.status != EioCancelled ==>
      c.remaining.Some? && 0 <= c.remaining.value <= Max(0, c.timer.value.item.ms)
  }

  /** Timers that were pending at `at` are reported in time when measured from `at`. */
  lemma PendingInTime(c: Call, timed: seq<Entry<Timer>>, at: int)
    requires CallOk(c) && TimersDue(timed, at)
      && (c.RunEvent? ==> c.status == EioCancelled || c.status == EioTimeout || c.at == at)
    ensures InTime(c, timed)
  {
  }

  /** The delayed handler on top is invoked while it is still in the heap. */
  function Begun(s: Snap, at: int, least: bool): Snap
    requires s.delays != []
  {
    s.(log := s.log + [RunDelay(s.delays[0], EioOk, at, least)], heldDelays := multiset{s.delays[0]})
  }

  lemma BegunOk(s: Snap, at: int, least: bool)
    requires Ok(s) && s.heldDelays == multiset{} && s.delays != [] && s.delays[0].deadline <= at && least
    ensures Ok(Begun(s, at, least)) && Goes(s, Begun(s, at, least))
      && Work(Begun(s, at, least)) == Work(s) - Weight(s.delays[0].item.hnd)
  {
    hide IoInv, NoIdle, DelaysOk, TimersDue, LogOk, RanPosts, RanDelays, RanEvents, Sum, Accounted, Weight;
    var c, b := RunDelay(s.delays[0], EioOk, at, least), multiset(s.delays);
    RanPush(s.log, c);
    LogPush(s.log, c);
    assert s.delays[0] in b;
    BagHeld(s.taken, multiset{}, RanDelays(s.log), b, s.delays[0]);
    SumRemove(b, s.delays[0], DelayWeight);
    assert b - multiset{} == b;
    AccountedSame(s.io.regs, |s.log|, s.log + [c]);
  }

  function Ended(s: Snap): Snap
    requires s.delays != []
  {
    s.(delays := PopTop(s.delays), heldDelays := multiset{})
  }

  lemma EndedOk(s: Snap)
    requires Ok(s) && s.delays != [] && s.heldDelays == multiset{s.delays[0]}
    ensures Ok(Ended(s)) && Goes(s, Ended(s)) && Work(Ended(s)) == Work(s)
  {
    hide IoInv, NoIdle, TimersDue, LogOk, RanPosts, RanDelays, RanEvents, Sum, Accounted, Weight, PopTop;
    PopTopCorrect(s.delays);
    var d, e := PopTop(s.delays), s.delays[0];
    forall x | x in d
      ensures x in s.delays
    {
      assert x in multiset(d);
    }
    assert e in multiset(s.delays);
    assert multiset(d) - multiset{} == multiset(s.delays) - multiset{e};
    EndedBags(s.taken, RanDelays(s.log), multiset(s.delays), e);
    AccountedSame(s.io.regs, |s.log|, s.log);
  }

  lemma EndedBags<T>(taken: multiset<T>, ran: multiset<T>, b: multiset<T>, e: T)
    requires e in b && taken + multiset{e} == ran + b
    ensures taken + multiset{} == ran + (b - multiset{e})
  {
    forall x
      ensures taken[x] == (ran + (b - multiset{e}))[x]
    {
      assert (taken + multiset{e})[x] == (ran + b)[x];
    }
  }

  /** The heap afterwards: the old entries without the one that ran, and what its callback added. */
  lemma EndedHeap(s: Snap, s1: Snap)
    requires s.delays != [] && s1.delays != [] && s1.delays[0] == s.delays[0] && DelaysGrow(s, s1)
      && HeapOrdered(s1.delays)
    ensures multiset(PopTop(s1.delays)) == multiset(s.delays) - multiset{s.delays[0]} + (s1.taken - s.taken)
  {
    hide PopTop;
    PopTopCorrect(s1.delays);
    var e := s.delays[0];
    assert e in multiset(s.delays);
    forall x
      ensures multiset(PopTop(s1.delays))[x] == (multiset(s.delays) - multiset{e} + (s1.taken - s.taken))[x]
    {
      assert (s.taken + multiset(s1.delays))[x] == (s1.taken + multiset(s.delays))[x];
    }
  }

  /** A delivery by timeout_first. */
  predicate TimedOutCall(c: Call) {
    (c.RunEvent? && c.status == EioTimeout) || (c.RunDelay? && c.status == EioOk)
  }

  lemma TimeoutCall(s: Snap, at: int)
    requires Ok(s) && s.io.timed != [] && s.io.timed[0].deadline <= at
    ensures
      var k := s.io.timed[0].item.key;
      k in s.io.regs && TimerFor(s.io, k) == Some(s.io.timed[0])
      && CallOk(EventCall(s.io, k, EioTimeout, at, {}, true))
  {
  }

  // ---------- stopping ----------

  function StopDelayCall(e: Entry<Delayed>): Call { RunDelay(e, EioStopped, 0, false) }

  /** Lines 113-117 for the entry at `i`. */
  function StopDelay(s: Snap, i: nat): Snap
    requires i < |s.delays|
  {
    s.(log := s.log + [StopDelayCall(s.delays[i])], heldDelays := s.heldDelays + multiset{s.delays[i]})
  }

  /** What is logged when a whole array of delayed handlers is stopped. */
  function StopDelayCalls(delays: seq<Entry<Delayed>>): (calls: seq<Call>)
    ensures |calls| == |delays| && forall i :: 0 <= i < |delays| ==>
      calls[i] == RunDelay(delays[i], EioStopped, 0, false)
  {
    seq(|delays|, i requires 0 <= i < |delays| => StopDelayCall(delays[i]))
  }

  lemma BagHeld<T>(taken: multiset<T>, held: multiset<T>, ran: multiset<T>, b: multiset<T>, x: T)
    requires taken + held == ran + b
    ensures taken + (held + multiset{x}) == (ran + multiset{x}) + b
  {
    assert taken + (held + multiset{x}) == (taken + held) + multiset{x};
    assert (ran + multiset{x}) + b == (ran + b) + multiset{x};
  }

  lemma StopDelayOk(s: Snap, i: nat)
    requires Ok(s) && i < |s.delays| && s.heldDelays == multiset(s.delays[..i])
    ensures Ok(StopDelay(s, i)) && StopDelay(s, i).heldDelays == multiset(s.delays[..i + 1])
  {
    hide IoInv, NoIdle, DelaysOk, TimersDue, LogOk, RanPosts, RanDelays, RanEvents, Sum;
    var c := StopDelayCall(s.delays[i]);
    RanPush(s.log, c);
    LogPush(s.log, c);
    assert s.delays[..i + 1] == s.delays[..i] + [s.delays[i]];
    assert s.delays == s.delays[..i + 1] + s.delays[i + 1..];
    BagHeld(s.taken, s.heldDelays, RanDelays(s.log), multiset(s.delays), s.delays[i]);
  }

  lemma DelaysStopped(s: Snap)
    requires Ok(s) && s.heldDelays == multiset(s.delays)
    ensures Ok(s.(delays := [], heldDelays := multiset{}))
  {
    hide IoInv, NoIdle, TimersDue, LogOk, RanPosts, RanDelays, RanEvents;
    BagCancel(s.taken, multiset(s.delays), RanDelays(s.log));
  }

  lemma BagCancel<T>(taken: multiset<T>, b: multiset<T>, ran: multiset<T>)
    requires taken + b == ran + b
    ensures taken + multiset{} == ran + multiset{}
  {
    forall x
      ensures taken[x] == ran[x]
    {
      assert (taken + b)[x] == (ran + b)[x];
    }
  }

  function StopEventCall(io: IoState, k: Key, at: int): Call
    requires k in io.regs
  {
    EventCall(io, k, EioStopped, at, {}, false)
  }

  /** stop_handler for the event `k`. */
  function StopEvent(s: Snap, k: Key, at: int): Snap
    requires k in s.io.regs
  {
    s.(log := s.log + [StopEventCall(s.io, k, at)], heldEvents := s.heldEvents + multiset{(k, s.io.regs[k])})
  }

  lemma StopCall(io: IoState, k: Key, at: int)
    requires k in io.regs && TimersDue(io.timed, at)
    ensures
      var c := StopEventCall(io, k, at);
      CallOk(c) && c.RunEvent? && c.key == k && c.hnd == io.regs[k] && c.status == EioStopped && c.at == at
  {
  }

  /** `calls` is the order of the walk; the first `i` events have been stopped. */
  lemma StopEventOk(s: Snap, calls: seq<(Key, Handler)>, i: nat, at: int)
    requires Ok(s) && multiset(calls) == multiset(s.io.regs.Items) && i < |calls|
    requires s.heldEvents == multiset(calls[..i]) && TimersDue(s.io.timed, at)
    ensures calls[i].0 in s.io.regs && s.io.regs[calls[i].0] == calls[i].1
    ensures Ok(StopEvent(s, calls[i].0, at)) && StopEvent(s, calls[i].0, at).heldEvents == multiset(calls[..i + 1])
  {
    hide IoInv, NoIdle, DelaysOk, TimersDue, LogOk, RanPosts, RanDelays, RanEvents, Sum, CallOk, StopEventCall;
    WalkedIsRegistered(s.io.regs, calls, i);
    var k := calls[i].0;
    StopCall(s.io, k, at);
    var c := StopEventCall(s.io, k, at);
    RanPush(s.log, c);
    LogPush(s.log, c);
    BagHeld(s.regd, s.heldEvents, RanEvents(s.log), multiset(s.io.regs.Items), (k, s.io.regs[k]));
  }

  lemma WalkedIsRegistered(regs: map<Key, Handler>, calls: seq<(Key, Handler)>, i: nat)
    requires multiset(calls) == multiset(regs.Items) && i < |calls|
    ensures calls[i].0 in regs && regs[calls[i].0] == calls[i].1
    ensures multiset(calls[..i]) + multiset{calls[i]} == multiset(calls[..i + 1]) <= multiset(regs.Items)
  {
    assert calls[i] in multiset(calls);
    assert calls[i] in regs.Items;
    assert calls[..i + 1] == calls[..i] + [calls[i]];
    assert calls == calls[..i + 1] + calls[i + 1..];
  }

  /** What is logged when all events are stopped: a call with EIO_STOPPED for each, in the order of the walk. */
  ghost predicate StopEventCalls(log: seq<Call>, io: IoState, calls: seq<(Key, Handler)>, at: int) {
    |log| == |calls|
    && forall i :: 0 <= i < |calls| ==> calls[i].0 in io.regs && log[i] == StopEventCall(io, calls[i].0, at)
  }

  lemma EventsStopped(s: Snap)
    requires Ok(s) && s.heldEvents == multiset(s.io.regs.Items)
    ensures Ok(s.(io := Idle, shape := RbShape.Nil, heldEvents := multiset{}))
  {
    hide DelaysOk, TimersDue, LogOk, RanPosts, RanDelays, RanEvents;
    BagCancel(s.regd, multiset(s.io.regs.Items), RanEvents(s.log));
    assert Idle.regs.Items == {};
    IdleOk(s.open, s.now);
  }

  lemma IdleOk(open: set<int>, now: int)
    ensures IoInv(Idle) && NoIdle(Idle.polls, open) && TimersDue(Idle.timed, now)
  {
  }

  // ---------- the end of a run ----------

  /** Without poll entries there are no registrations and no timers. */
  lemma NothingPolled(s: Snap)
    requires Ok(s) && s.io.polls == []
    ensures s.io.regs == map[] && s.io.timed == []
  {
    var some := s.io.timed != [];
    assert some ==> s.io.timed[0] in s.io.timed;
    forall k
      ensures k !in s.io.regs
    {
      assert k in s.io.regs ==> HasPoll(s.io.polls, k.fd);
    }
  }

  /** Nothing is pending, and everything that was accepted has been invoked exactly once. */
  ghost predicate AllDone(s: Snap) {
    && s.sync == [] && s.delays == [] && s.io == Idle
    && RanPosts(s.log) == s.posts && RanDelays(s.log) == s.taken && RanEvents(s.log) == s.regd
  }

  lemma EmptyIsDone(s: Snap)
    requires Ok(s) && AtRest(s) && s.sync == [] && s.delays == [] && s.io.polls == []
    ensures AllDone(s)
  {
    hide IoInv, RanPosts, RanDelays, RanEvents;
    NothingPolled(s);
    assert s.io.regs.Items == {};
    assert s.posts == RanPosts(s.log) + [] && s.sync[0..] == [];
    assert s.taken + multiset{} == s.taken && s.regd + multiset{} == s.regd;
  }
}
