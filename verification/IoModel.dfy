/** The registration state as plain values: which (descriptor, wait type) pairs wait with which handler,
    the poll vector, and the deadline heap.  The node tree with its slots and back-indices refines this
    state (module Registry); the event loop works on it (module EventLoop). */
module IoModel {
  import opened IoTypes
  import opened DeadlineHeap

  /** What a heap entry stands for: the event, the requested time limit in milliseconds, and the clock reading
      from which it counts. */
  datatype Timer = Timer(key: Key, ms: int, since: int)

  datatype IoState = IoState(polls: seq<PollFd>, regs: map<Key, Handler>, timed: seq<Entry<Timer>>)

  const Idle := IoState([], map[], [])

  // ---------- poll masks ----------

  /** READ_MASK, WRITE_MASK, EXCEPT_MASK of iosvc_sched.c. */
  function SchedMask(wt: WaitType): Flags {
    match wt
    case WaitRead => {PollRdnorm, PollRdband, PollErr, PollHup, PollIn}
    case WaitWrite => {PollWrnorm, PollWrband, PollErr, PollOut}
    case WaitException => {PollPri}
  }

  /** evt_masks of iosvc_dequeue.c. */
  function ClearMask(wt: WaitType): Flags {
    match wt
    case WaitRead => {PollIn, PollHup, PollRdnorm, PollRdband}
    case WaitWrite => {PollOut, PollWrnorm, PollWrband}
    case WaitException => {PollPri}
  }

  /** Lines 60-63 of iosvc_dequeue.c. */
  function DropMask(events: Flags, wt: WaitType): Flags {
    var e := events - ClearMask(wt);
    if e * (ClearMask(WaitRead) + ClearMask(WaitWrite)) == {} then e - {PollErr} else e
  }

  function MaskIf(b: bool, wt: WaitType): Flags { if b then SchedMask(wt) else {} }

  /** The union of the masks of the given wait types. */
  function Mask(r: bool, w: bool, x: bool): Flags {
    MaskIf(r, WaitRead) + MaskIf(w, WaitWrite) + MaskIf(x, WaitException)
  }

  function EventsOf(regs: map<Key, Handler>, fd: int): Flags {
    Mask(Key(fd, WaitRead) in regs, Key(fd, WaitWrite) in regs, Key(fd, WaitException) in regs)
  }

  lemma MaskDropped(r: bool, w: bool, x: bool)
    ensures DropMask(Mask(r, w, x), WaitRead) == Mask(false, w, x)
    ensures DropMask(Mask(r, w, x), WaitWrite) == Mask(r, false, x)
    ensures DropMask(Mask(r, w, x), WaitException) == Mask(r, w, false)
  {
    MaskDroppedRead(r, w, x);
    MaskDroppedWrite(r, w, x);
    MaskDroppedException(r, w, x);
  }

  lemma MaskDroppedRead(r: bool, w: bool, x: bool)
    ensures DropMask(Mask(r, w, x), WaitRead) == Mask(false, w, x)
  {
  }

  lemma MaskDroppedWrite(r: bool, w: bool, x: bool)
    ensures DropMask(Mask(r, w, x), WaitWrite) == Mask(r, false, x)
  {
  }

  lemma MaskDroppedException(r: bool, w: bool, x: bool)
    ensures DropMask(Mask(r, w, x), WaitException) == Mask(r, w, false)
  {
  }

  /** The union is empty exactly when nothing is scheduled, carries POLLERR exactly when a read or a write
      is, and is never POLLERR alone: the error-only branch of dispatch_ready_events is unreachable. */
  lemma MaskMeaning(r: bool, w: bool, x: bool)
    ensures Mask(r, w, x) == {} <==> !r && !w && !x
    ensures PollErr in Mask(r, w, x) <==> r || w
    ensures PollIn in Mask(r, w, x) <==> r
    ensures PollOut in Mask(r, w, x) <==> w
    ensures PollPri in Mask(r, w, x) <==> x
    ensures Mask(r, w, x) - {PollPri} != {PollErr}
  {
    if r {
      assert PollIn in Mask(r, w, x) - {PollPri};
    } else if w {
      assert PollOut in Mask(r, w, x) - {PollPri};
    } else {
      assert PollErr !in Mask(r, w, x);
    }
    if x {
      assert PollPri in Mask(r, w, x);
    }
  }

  // ---------- looking things up ----------

  /** The index of the poll entry for `fd`, or the length when there is none. */
  function FindPoll(polls: seq<PollFd>, fd: int): (i: nat)
    ensures i <= |polls| && (i < |polls| ==> polls[i].fd == fd)
    ensures forall j :: 0 <= j < i ==> polls[j].fd != fd
  {
    if polls == [] || polls[0].fd == fd then 0 else 1 + FindPoll(polls[1..], fd)
  }

  predicate HasPoll(polls: seq<PollFd>, fd: int) { FindPoll(polls, fd) < |polls| }

  /** The heap position of the event `k`, or the length when it has no time limit. */
  function FindTimer(timed: seq<Entry<Timer>>, k: Key): (i: nat)
    ensures i <= |timed| && (i < |timed| ==> timed[i].item.key == k)
    ensures forall j :: 0 <= j < i ==> timed[j].item.key != k
  {
    if timed == [] || timed[0].item.key == k then 0 else 1 + FindTimer(timed[1..], k)
  }

  // ---------- the four operations ----------

  /** What iosvc_enqueue answers, given the state it is called in. */
  function EnqueueResult(status: Status, regs: map<Key, Handler>, fd: int, wt: Option<WaitType>,
      hnd: Option<Handler>): ErrCode {
    if status != Ready && status != Running then EioStopped
    else if hnd.None? || wt.None? then EioInvarg
    else if Key(fd, wt.value) in regs then EioInprogress
    else EioOk
  }

  lemma ResultMeans(status: Status, regs: map<Key, Handler>, fd: int, wt: Option<WaitType>, hnd: Option<Handler>)
    ensures
      var err, open := EnqueueResult(status, regs, fd, wt, hnd), status.Ready? || status.Running?;
      && (err == EioOk <==> open && hnd.Some? && wt.Some? && Key(fd, wt.value) !in regs)
      && (err == EioInprogress <==> open && hnd.Some? && wt.Some? && Key(fd, wt.value) in regs)
      && (err == EioInvarg <==> open && (hnd.None? || wt.None?))
      && (err == EioStopped <==> status.Stopping? || status.Done?)
  {
  }

  function Enqueue(io: IoState, k: Key, h: Handler): IoState {
    var i := FindPoll(io.polls, k.fd);
    var polls := if i < |io.polls| then io.polls[i := io.polls[i].(events := io.polls[i].events + SchedMask(k.wt))]
                 else io.polls + [PollFd(k.fd, SchedMask(k.wt), {})];
    io.(polls := polls, regs := io.regs[k := h])
  }

  function AddTimer(io: IoState, k: Key, since: int, ms: int): IoState {
    io.(timed := Push(io.timed, Entry(since + ms, Timer(k, ms, since))))
  }

  function DropTimer(timed: seq<Entry<Timer>>, k: Key): seq<Entry<Timer>> {
    var j := FindTimer(timed, k);
    if j < |timed| then RemoveAt(timed, j) else timed
  }

  function Dequeue(io: IoState, k: Key): IoState
    requires HasPoll(io.polls, k.fd)
  {
    var i := FindPoll(io.polls, k.fd);
    IoState(io.polls[i := io.polls[i].(events := DropMask(io.polls[i].events, k.wt))],
            io.regs - {k}, DropTimer(io.timed, k))
  }

  /** The poll vector after swap-remove of the entry for `fd`. */
  function Cleanup(io: IoState, fd: int): IoState
    requires HasPoll(io.polls, fd)
  {
    var n := |io.polls| - 1;
    io.(polls := io.polls[FindPoll(io.polls, fd) := io.polls[n]][..n])
  }

  /** Lines 22-24 of iosvc_dequeue.c. */
  function RemainingAt(deadline: int, now: int): int { if deadline > now then deadline - now else 0 }

  /** Poll vectors that differ in revents only. */
  predicate SameButRevents(polls: seq<PollFd>, polls': seq<PollFd>) {
    |polls'| == |polls|
    && forall i :: 0 <= i < |polls| ==> polls'[i].fd == polls[i].fd && polls'[i].events == polls[i].events
  }

  lemma ReventsFree(polls: seq<PollFd>, polls': seq<PollFd>, regs: map<Key, Handler>)
    requires SameButRevents(polls, polls')
    ensures PollsOk(polls, regs) ==> PollsOk(polls', regs)
    ensures forall fd :: FindPoll(polls', fd) == FindPoll(polls, fd)
  {
  }

  // ---------- what every operation keeps ----------

  predicate PollsOk(polls: seq<PollFd>, regs: map<Key, Handler>) {
    (forall i, j :: 0 <= i < j < |polls| ==> polls[i].fd != polls[j].fd)
    && (forall i :: 0 <= i < |polls| ==> polls[i].events == EventsOf(regs, polls[i].fd))
    && (forall k :: k in regs ==> HasPoll(polls, k.fd))
  }

  predicate DistinctKeys(timed: seq<Entry<Timer>>) {
    forall i, j :: 0 <= i < j < |timed| ==> timed[i].item.key != timed[j].item.key
  }

  predicate TimedOk(timed: seq<Entry<Timer>>, regs: map<Key, Handler>) {
    HeapOrdered(timed) && DistinctKeys(timed)
    && (forall e :: e in timed ==> e.deadline >= 0 && e.item.key in regs)
  }

  predicate IoInv(io: IoState) {
    PollsOk(io.polls, io.regs) && TimedOk(io.timed, io.regs)
  }

  lemma FindPollIs(polls: seq<PollFd>, i: nat)
    requires i < |polls| && forall a, b :: 0 <= a < b < |polls| ==> polls[a].fd != polls[b].fd
    ensures FindPoll(polls, polls[i].fd) == i
  {
  }

  /** A descriptor has a poll entry exactly when its number occurs in the vector. */
  lemma HasPollIff(polls: seq<PollFd>, fd: int)
    ensures HasPoll(polls, fd) <==> exists i :: 0 <= i < |polls| && polls[i].fd == fd
  {
  }

  lemma EventsAfterEnqueue(regs: map<Key, Handler>, k: Key, h: Handler, fd: int)
    ensures
      EventsOf(regs[k := h], fd)
      == if fd == k.fd then EventsOf(regs, fd) + SchedMask(k.wt) else EventsOf(regs, fd)
  {
  }

  lemma EventsAfterDequeue(regs: map<Key, Handler>, k: Key, fd: int)
    ensures EventsOf(regs - {k}, fd) == if fd == k.fd then DropMask(EventsOf(regs, fd), k.wt) else EventsOf(regs, fd)
  {
    MaskDropped(Key(fd, WaitRead) in regs, Key(fd, WaitWrite) in regs, Key(fd, WaitException) in regs);
  }

  lemma EventsEmptyIff(regs: map<Key, Handler>, fd: int)
    ensures EventsOf(regs, fd) == {} <==> forall wt :: Key(fd, wt) !in regs
    ensures EventsOf(regs, fd) - {PollPri} != {PollErr}
    ensures PollIn in EventsOf(regs, fd) <==> Key(fd, WaitRead) in regs
    ensures PollOut in EventsOf(regs, fd) <==> Key(fd, WaitWrite) in regs
    ensures PollPri in EventsOf(regs, fd) <==> Key(fd, WaitException) in regs
  {
    var r, w, x := Key(fd, WaitRead) in regs, Key(fd, WaitWrite) in regs, Key(fd, WaitException) in regs;
    MaskMeaning(r, w, x);
    if !r && !w && !x {
      forall wt
        ensures Key(fd, wt) !in regs
      {
        match wt
        case WaitRead =>
        case WaitWrite =>
        case WaitException =>
      }
    }
  }

  lemma EnqueueHasPoll(io: IoState, k: Key, h: Handler, fd: int)
    ensures HasPoll(Enqueue(io, k, h).polls, fd) <==> HasPoll(io.polls, fd) || fd == k.fd
  {
    var p, p', f := io.polls, Enqueue(io, k, h).polls, FindPoll(io.polls, k.fd);
    HasPollIff(p, fd);
    HasPollIff(p', fd);
    assert p'[f].fd == k.fd && forall i :: 0 <= i < |p| ==> p'[i].fd == p[i].fd;
  }

  lemma EnqueueEvents(io: IoState, k: Key, h: Handler, i: nat)
    requires PollsOk(io.polls, io.regs) && i < |Enqueue(io, k, h).polls|
    ensures var io' := Enqueue(io, k, h); io'.polls[i].events == EventsOf(io'.regs, io'.polls[i].fd)
  {
    var io' := Enqueue(io, k, h);
    EventsAfterEnqueue(io.regs, k, h, io'.polls[i].fd);
    if i < |io.polls| && io.polls[i].fd == k.fd {
      FindPollIs(io.polls, i);
    }
    if i == |io.polls| {
      FreshEvents(io, k.fd);
    }
  }

  lemma EnqueueKeepsPolls(io: IoState, k: Key, h: Handler)
    requires PollsOk(io.polls, io.regs)
    ensures PollsOk(Enqueue(io, k, h).polls, Enqueue(io, k, h).regs)
    ensures forall fd :: HasPoll(Enqueue(io, k, h).polls, fd) <==> HasPoll(io.polls, fd) || fd == k.fd
  {
    var io' := Enqueue(io, k, h);
    forall fd
      ensures HasPoll(io'.polls, fd) <==> HasPoll(io.polls, fd) || fd == k.fd
    {
      EnqueueHasPoll(io, k, h, fd);
    }
    forall i | 0 <= i < |io'.polls|
      ensures io'.polls[i].events == EventsOf(io'.regs, io'.polls[i].fd)
    {
      EnqueueEvents(io, k, h, i);
    }
  }

  /** A descriptor without poll entry has no registration. */
  lemma FreshEvents(io: IoState, fd: int)
    requires PollsOk(io.polls, io.regs) && !HasPoll(io.polls, fd)
    ensures EventsOf(io.regs, fd) == {} && forall wt :: Key(fd, wt) !in io.regs
  {
  }

  lemma DequeueKeepsPolls(io: IoState, k: Key)
    requires PollsOk(io.polls, io.regs) && HasPoll(io.polls, k.fd)
    ensures PollsOk(Dequeue(io, k).polls, Dequeue(io, k).regs)
    ensures forall fd :: HasPoll(Dequeue(io, k).polls, fd) <==> HasPoll(io.polls, fd)
  {
    var io' := Dequeue(io, k);
    var f := FindPoll(io.polls, k.fd);
    forall fd
      ensures HasPoll(io'.polls, fd) <==> HasPoll(io.polls, fd)
    {
      HasPollIff(io.polls, fd);
      HasPollIff(io'.polls, fd);
      var i, i' := FindPoll(io.polls, fd), FindPoll(io'.polls, fd);
      assert i < |io.polls| ==> io'.polls[i].fd == fd;
      assert i' < |io.polls| ==> io.polls[i'].fd == fd;
    }
    forall i | 0 <= i < |io'.polls|
      ensures io'.polls[i].events == EventsOf(io'.regs, io'.polls[i].fd)
    {
      EventsAfterDequeue(io.regs, k, io'.polls[i].fd);
      if io.polls[i].fd == k.fd {
        FindPollIs(io.polls, i);
      }
    }
  }

  lemma CleanupHasPoll(io: IoState, fd: int, g: int)
    requires PollsOk(io.polls, io.regs) && HasPoll(io.polls, fd)
    ensures HasPoll(Cleanup(io, fd).polls, g) <==> HasPoll(io.polls, g) && g != fd
  {
    var p, p', f, n := io.polls, Cleanup(io, fd).polls, FindPoll(io.polls, fd), |io.polls| - 1;
    assert p[f].fd == fd;
    HasPollIff(p, g);
    HasPollIff(p', g);
    if HasPoll(p, g) && g != fd {
      var i := FindPoll(p, g);
      assert p'[if i == n then f else i].fd == g;
    }
    if HasPoll(p', g) {
      var i := FindPoll(p', g);
      assert p[if i == f then n else i].fd == g;
    }
  }

  /** Swap-remove takes out exactly the entry for `fd`. */
  lemma CleanupKeepsPolls(io: IoState, fd: int)
    requires PollsOk(io.polls, io.regs) && HasPoll(io.polls, fd) && EventsOf(io.regs, fd) == {}
    ensures PollsOk(Cleanup(io, fd).polls, io.regs)
    ensures forall g :: HasPoll(Cleanup(io, fd).polls, g) <==> HasPoll(io.polls, g) && g != fd
    ensures multiset(Cleanup(io, fd).polls) == multiset(io.polls) - multiset{io.polls[FindPoll(io.polls, fd)]}
  {
    hide PollsOk, FindPoll, EventsOf;
    CleanupPollsOk(io, fd);
    SwapRemoveMultiset(io.polls, FindPoll(io.polls, fd));
  }

  lemma CleanupPollsOk(io: IoState, fd: int)
    requires PollsOk(io.polls, io.regs) && HasPoll(io.polls, fd) && EventsOf(io.regs, fd) == {}
    ensures PollsOk(Cleanup(io, fd).polls, io.regs)
    ensures forall g :: HasPoll(Cleanup(io, fd).polls, g) <==> HasPoll(io.polls, g) && g != fd
  {
    hide FindPoll, EventsOf, HasPoll;
    forall g
      ensures HasPoll(Cleanup(io, fd).polls, g) <==> HasPoll(io.polls, g) && g != fd
    {
      CleanupHasPoll(io, fd, g);
    }
    EventsEmptyIff(io.regs, fd);
    PolledAt(io.polls, fd);
    var p, p', f := io.polls, Cleanup(io, fd).polls, FindPoll(io.polls, fd);
    assert forall i :: 0 <= i < |p'| ==> p'[i] == p[if i == f then |p| - 1 else i];
  }

  lemma PolledAt(polls: seq<PollFd>, fd: int)
    ensures HasPoll(polls, fd) <==> FindPoll(polls, fd) < |polls|
  {
  }

  lemma SwapRemoveMultiset<T>(s: seq<T>, f: nat)
    requires f < |s|
    ensures multiset(s[f := s[|s| - 1]][..|s| - 1]) == multiset(s) - multiset{s[f]}
  {
    var n := |s| - 1;
    var r := s[f := s[n]][..n];
    if f == n {
      assert s == r + [s[n]];
    } else {
      assert s == s[..f] + [s[f]] + s[f + 1..n] + [s[n]];
      assert r == s[..f] + [s[n]] + s[f + 1..n];
    }
  }

  // ---------- the deadline heap ----------

  lemma {:induction false} KeyOnce(s: seq<Entry<Timer>>, e: Entry<Timer>)
    requires DistinctKeys(s)
    ensures multiset(s)[e] <= 1
  {
    if s != [] {
      var r := s[1..];
      assert s == [s[0]] + r;
      assert DistinctKeys(r);
      KeyOnce(r, e);
      if s[0] == e {
        assert e !in r;
      }
    }
  }

  /** Distinct keys survive any rearrangement and any removal. */
  lemma DistinctKeysSub(s: seq<Entry<Timer>>, s': seq<Entry<Timer>>)
    requires DistinctKeys(s) && multiset(s') <= multiset(s)
    ensures DistinctKeys(s')
  {
    forall i, j | 0 <= i < j < |s'|
      ensures s'[i].item.key != s'[j].item.key
    {
      var a, b := s'[i], s'[j];
      assert a in multiset(s) && b in multiset(s);
      if a == b {
        TwiceIn(s', i, j);
        KeyOnce(s, a);
      } else {
        var x :| 0 <= x < |s| && s[x] == a;
        var y :| 0 <= y < |s| && s[y] == b;
        assert x < y || y < x;
      }
    }
  }

  lemma TwiceIn<T>(s: seq<T>, i: nat, j: nat)
    requires i < j < |s| && s[i] == s[j]
    ensures multiset(s)[s[i]] >= 2
  {
    assert s == s[..i] + [s[i]] + s[i + 1..j] + [s[j]] + s[j + 1..];
  }

  lemma AddTimerKeeps(io: IoState, k: Key, since: int, ms: int)
    requires TimedOk(io.timed, io.regs) && k in io.regs && FindTimer(io.timed, k) == |io.timed| && since + ms >= 0
    ensures TimedOk(AddTimer(io, k, since, ms).timed, io.regs)
    ensures
      multiset(AddTimer(io, k, since, ms).timed)
      == multiset(io.timed) + multiset{Entry(since + ms, Timer(k, ms, since))}
  {
    var e := Entry(since + ms, Timer(k, ms, since));
    var s := AddTimer(io, k, since, ms).timed;
    PushCorrect(io.timed, e);
    assert DistinctKeys(io.timed + [e]);
    DistinctKeysSub(io.timed + [e], s);
    forall x | x in s
      ensures x.deadline >= 0 && x.item.key in io.regs
    {
      assert x in multiset(s);
    }
  }

  lemma DropTimerKeeps(timed: seq<Entry<Timer>>, regs: map<Key, Handler>, k: Key)
    requires TimedOk(timed, regs)
    ensures TimedOk(DropTimer(timed, k), regs - {k})
    ensures multiset(DropTimer(timed, k)) <= multiset(timed)
    ensures FindTimer(timed, k) < |timed| ==>
      multiset(DropTimer(timed, k)) == multiset(timed) - multiset{timed[FindTimer(timed, k)]}
  {
    var j, s := FindTimer(timed, k), DropTimer(timed, k);
    if j < |timed| {
      assert timed[0] in timed;
      RemoveAtCorrect(timed, j);
    }
    DistinctKeysSub(timed, s);
    forall x | x in s
      ensures x.deadline >= 0 && x.item.key in regs - {k}
    {
      assert x in multiset(s) && x in timed;
      if x.item.key == k {
        var i :| 0 <= i < |timed| && timed[i] == x;
        assert i == j;
        KeyOnce(timed, x);
        assert false;
      }
    }
  }

  /** The invariant of the registration state is kept by every operation. */
  lemma OperationsKeepInv(io: IoState, k: Key, h: Handler)
    requires IoInv(io)
    ensures k !in io.regs ==> IoInv(Enqueue(io, k, h)) && FindTimer(io.timed, k) == |io.timed|
    ensures k in io.regs ==> HasPoll(io.polls, k.fd) && IoInv(Dequeue(io, k))
    ensures HasPoll(io.polls, k.fd) && EventsOf(io.regs, k.fd) == {} ==> IoInv(Cleanup(io, k.fd))
  {
    if k !in io.regs {
      EnqueueKeepsPolls(io, k, h);
      assert forall e :: e in io.timed ==> e.item.key != k;
    } else {
      DequeueKeepsPolls(io, k);
      DropTimerKeeps(io.timed, io.regs, k);
    }
    if HasPoll(io.polls, k.fd) && EventsOf(io.regs, k.fd) == {} {
      CleanupKeepsPolls(io, k.fd);
    }
  }
}
