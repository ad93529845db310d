/** What the calls of a callback store, and whether they stop the service (src/iosvc_post.c, src/iosvc_sched.c,
    src/iosvc_cancel.c). */
module LoopScripts {
  import opened IoTypes
  import opened DeadlineHeap
  import opened IoModel
  import opened LoopState
  import opened Weights
  import opened LoopRounds
  import opened LoopDispatch
  import opened LoopCalls
  import opened LoopEffects
  import RbShape

  // ---------- what a script adds ----------

  predicate NoCancels(script: seq<Action>) { forall a :: a in script ==> !a.Cancel? }

  /** The handlers that the service takes from these calls: all that are posted before it is stopped. */
  function PostsOf(status: Status, script: seq<Action>): seq<Handler> {
    if script == [] then []
    else
      var before, a := script[..|script| - 1], script[|script| - 1];
      PostsOf(status, before)
      + if status.Running? && Stop !in before && a.Post? && a.hnd.Some? then [a.hnd.value] else []
  }

  lemma PostsNone(status: Status)
    ensures PostsOf(status, []) == []
  {
  }

  lemma PostsPush(status: Status, before: seq<Action>, a: Action)
    ensures
      PostsOf(status, before + [a])
      == PostsOf(status, before)
         + if status.Running? && Stop !in before && a.Post? && a.hnd.Some? then [a.hnd.value] else []
  {
    assert (before + [a])[..|before|] == before;
  }

  lemma {:induction false} PostsCat(status: Status, s: seq<Action>, t: seq<Action>)
    ensures PostsOf(status, s + t) == PostsOf(status, s) + if Stop in s then [] else PostsOf(status, t)
  {
    hide PostsOf;
    if t == [] {
      assert s + t == s;
      PostsNone(status);
    } else {
      var before, a := t[..|t| - 1], t[|t| - 1];
      PostsCat(status, s, before);
      assert t == before + [a] && s + t == (s + before) + [a];
      PostsPush(status, before, a);
      PostsPush(status, s + before, a);
    }
  }

  // ---------- the calls that are heard ----------

  /** The calls that a service in this status listens to: those up to the first that stops it. */
  function Heard(status: Status, script: seq<Action>): seq<Action> {
    if script == [] then []
    else
      var before := script[..|script| - 1];
      Heard(status, before) + if status.Running? && Stop !in before then [script[|script| - 1]] else []
  }

  lemma HeardPush(status: Status, before: seq<Action>, a: Action)
    ensures
      Heard(status, before + [a])
      == Heard(status, before) + if status.Running? && Stop !in before then [a] else []
  {
    assert (before + [a])[..|before|] == before;
  }

  lemma HeardOne(status: Status, a: Action)
    ensures Heard(status, [a]) == if status.Running? then [a] else []
  {
    HeardPush(status, [], a);
    assert [] + [a] == [a];
  }

  lemma {:induction false} HeardMeans(status: Status, script: seq<Action>)
    ensures
      var heard := Heard(status, script);
      && heard <= script && (status.Running? && Stop !in script ==> heard == script)
      && (!status.Running? ==> heard == [])
      && (status.Running? && Stop in script ==>
            heard != [] && heard[|heard| - 1] == Stop && Stop !in heard[..|heard| - 1])
  {
    if script != [] {
      HeardMeans(status, script[..|script| - 1]);
    }
  }

  lemma {:induction false} HeardCat(status: Status, s: seq<Action>, t: seq<Action>)
    ensures Heard(status, s + t) == Heard(status, s) + if Stop in s then [] else Heard(status, t)
  {
    hide Heard;
    if t == [] {
      assert s + t == s;
      HeardMeans(status, t);
    } else {
      var before, a := t[..|t| - 1], t[|t| - 1];
      HeardCat(status, s, before);
      assert t == before + [a] && s + t == (s + before) + [a];
      HeardPush(status, before, a);
      HeardPush(status, s + before, a);
    }
  }

  /** Of each handler as many are posted as there are calls for it among those heard. */
  lemma {:induction false} PostsAreHeard(status: Status, script: seq<Action>, h: Handler)
    ensures multiset(PostsOf(status, script))[h] == multiset(Heard(status, script))[Post(Some(h))]
  {
    if script != [] {
      PostsAreHeard(status, script[..|script| - 1], h);
    }
  }

  /** One of these calls registers `h` for `k`. */
  predicate RegisteredBy(heard: seq<Action>, k: Key, h: Handler) { exists a :: a in heard && Registers(a, k, h) }

  /** The first of these calls that asks for something to be registered for `k`. */
  predicate FirstFor(heard: seq<Action>, i: int, k: Key) {
    0 <= i < |heard| && Asks(heard[i], k) && forall j :: 0 <= j < i ==> !Asks(heard[j], k)
  }

  // ---------- what is stored afterwards ----------

  /** What is registered for `k` at the beginning, other than the event just called. */
  predicate Based(a: Snap, k: Key, but: Option<Key>) { k in a.io.regs && Some(k) != but }

  /** The new delayed handlers are those asked for, each as often as asked for, with the deadline asked for. */
  ghost predicate BroughtDelays(a: Snap, b: Snap, heard: seq<Action>) {
    && (forall e :: e in b.delays ==>
          || e in a.delays
          || (PostDelay(Some(e.item.hnd), e.item.ms) in heard && a.now <= e.deadline - e.item.ms <= b.now))
    && forall d: Delayed ::
         Tally(b.taken, d)
         == Tally(a.taken, d) + if d.ms >= 0 then multiset(heard)[PostDelay(Some(d.hnd), d.ms)] else 0
  }

  /** Nothing that was registered is gone; everything else has the handler for which it was first asked, and
      nothing is registered without being asked for. */
  ghost predicate BroughtRegs(a: Snap, b: Snap, heard: seq<Action>, but: Option<Key>) {
    && (forall k :: Based(a, k, but) ==> k in b.io.regs && b.io.regs[k] == a.io.regs[k])
    && (forall i, k :: FirstFor(heard, i, k) && !Based(a, k, but) ==>
          k in b.io.regs && b.io.regs[k] == heard[i].hnd.value)
    && forall k :: k in b.io.regs ==> Based(a, k, but) || RegisteredBy(heard, k, b.io.regs[k])
  }

  predicate TimedBy(a: Action, e: Entry<Timer>) { a.SchedTimeout? && Asks(a, e.item.key) && a.ms == e.item.ms }

  /** The same of the time limits. */
  ghost predicate BroughtTimers(a: Snap, b: Snap, heard: seq<Action>, but: Option<Key>) {
    && (forall e :: e in a.io.timed && Some(e.item.key) != but ==> e in b.io.timed)
    && (forall i, k :: FirstFor(heard, i, k) && !Based(a, k, but) ==>
          if heard[i].SchedTimeout? then exists e :: e in b.io.timed && e.item.key == k && TimedBy(heard[i], e)
          else forall e :: e in b.io.timed ==> e.item.key != k)
    && forall e :: e in b.io.timed ==>
         || (e in a.io.timed && Based(a, e.item.key, but))
         || (!Based(a, e.item.key, but) && a.now <= e.item.since <= b.now && exists x :: x in heard && TimedBy(x, e))
  }

  /** What these calls leave behind when they cancel nothing. */
  ghost predicate Brought(a: Snap, b: Snap, script: seq<Action>, but: Option<Key>) {
    var heard := Heard(a.status, script);
    && a.now <= b.now && b.sync == a.sync + PostsOf(a.status, script) && BroughtDelays(a, b, heard)
    && BroughtRegs(a, b, heard, but) && BroughtTimers(a, b, heard, but)
  }

  /** What the calls of a callback do. */
  ghost predicate Ran(a: Snap, b: Snap, script: seq<Action>) {
    Effects(a, b, script) && (NoCancels(script) ==> Brought(a, b, script, None))
  }

  lemma DelaysCat(a: Snap, b: Snap, c: Snap, u: seq<Action>, v: seq<Action>)
    requires BroughtDelays(a, b, u) && BroughtDelays(b, c, v) && a.now <= b.now <= c.now
    ensures BroughtDelays(a, c, u + v)
  {
    hide Tally;
    forall d: Delayed
      ensures Tally(c.taken, d)
        == Tally(a.taken, d) + if d.ms >= 0 then multiset(u + v)[PostDelay(Some(d.hnd), d.ms)] else 0
    {
      assert Tally(b.taken, d)
        == Tally(a.taken, d) + if d.ms >= 0 then multiset(u)[PostDelay(Some(d.hnd), d.ms)] else 0;
      assert multiset(u + v) == multiset(u) + multiset(v);
    }
  }

  lemma FirstOfTwo(u: seq<Action>, v: seq<Action>, i: int, k: Key)
    requires FirstFor(u + v, i, k)
    ensures if i < |u| then FirstFor(u, i, k) && u[i] == (u + v)[i]
            else FirstFor(v, i - |u|, k) && v[i - |u|] == (u + v)[i] && forall a :: a in u ==> !Asks(a, k)
  {
    forall j | 0 <= j < |u|
      ensures (u + v)[j] == u[j]
    {
    }
    forall j | 0 <= j < |v|
      ensures (u + v)[|u| + j] == v[j]
    {
    }
  }

  lemma RegsCat(a: Snap, b: Snap, c: Snap, u: seq<Action>, v: seq<Action>)
    requires BroughtRegs(a, b, u, None) && BroughtRegs(b, c, v, None)
    ensures BroughtRegs(a, c, u + v, None)
  {
    forall i, k | FirstFor(u + v, i, k) && !Based(a, k, None)
      ensures k in c.io.regs && c.io.regs[k] == (u + v)[i].hnd.value
    {
      FirstOfTwo(u, v, i, k);
      if i >= |u| {
        assert !Based(b, k, None);
      }
    }
    forall k | k in c.io.regs && !Based(a, k, None)
      ensures RegisteredBy(u + v, k, c.io.regs[k])
    {
      if x :| x in u && Registers(x, k, c.io.regs[k]) {
        assert x in u + v;
      } else if x :| x in v && Registers(x, k, c.io.regs[k]) {
        assert x in u + v;
      }
    }
  }

  lemma TimersCat(a: Snap, b: Snap, c: Snap, u: seq<Action>, v: seq<Action>)
    requires BroughtTimers(a, b, u, None) && BroughtTimers(b, c, v, None) && a.now <= b.now <= c.now
    requires BroughtRegs(a, b, u, None)
    ensures BroughtTimers(a, c, u + v, None)
  {
    forall i, k | FirstFor(u + v, i, k) && !Based(a, k, None)
      ensures if (u + v)[i].SchedTimeout? then exists e :: e in c.io.timed && e.item.key == k && TimedBy((u + v)[i], e)
              else forall e :: e in c.io.timed ==> e.item.key != k
    {
      FirstOfTwo(u, v, i, k);
      if i >= |u| {
        assert !Based(b, k, None);
      }
    }
    forall e | e in c.io.timed && !(e in a.io.timed && Based(a, e.item.key, None))
      ensures !Based(a, e.item.key, None) && a.now <= e.item.since <= c.now
      ensures exists x :: x in u + v && TimedBy(x, e)
    {
      if x :| x in u && TimedBy(x, e) {
        assert x in u + v;
      } else if x :| x in v && TimedBy(x, e) {
        assert x in u + v;
      }
    }
  }

  lemma BroughtCat(a: Snap, b: Snap, c: Snap, s: seq<Action>, t: seq<Action>)
    requires Brought(a, b, s, None) && Brought(b, c, t, None) && StopsBy(a, b, s) && b.log == a.log
    requires StatusSteps(a.status, b.status)
    ensures Brought(a, c, s + t, None)
  {
    hide PostsOf, Heard, BroughtDelays, BroughtRegs, BroughtTimers;
    PostsCat(a.status, s, t);
    PostsRefused(b.status, t);
    PostsRefused(a.status, t);
    HeardCat(a.status, s, t);
    HeardMeans(a.status, t);
    HeardMeans(b.status, t);
    var u, v := Heard(a.status, s), Heard(b.status, t);
    assert Heard(a.status, s + t) == u + v;
    DelaysCat(a, b, c, u, v);
    RegsCat(a, b, c, u, v);
    TimersCat(a, b, c, u, v);
  }

  lemma {:induction false} PostsRefused(status: Status, script: seq<Action>)
    ensures !status.Running? ==> PostsOf(status, script) == []
  {
    if script != [] {
      PostsRefused(status, script[..|script| - 1]);
    }
  }

  lemma FirstCancelled(log: seq<Call>, from: nat, script: seq<Action>)
    requires from < |log| && OnlyCancels(log, from, script)
    ensures !NoCancels(script)
  {
    assert Cancel(log[from].key.fd, log[from].key.wt) in script;
  }

  /** Without cancellations a callback invokes nothing. */
  lemma NothingInvoked(l1: seq<Call>, l2: seq<Call>, script: seq<Action>)
    requires l1 <= l2 && OnlyCancels(l2, |l1|, script) && NoCancels(script)
    ensures l2 == l1
  {
    if |l2| > |l1| {
      FirstCancelled(l2, |l1|, script);
    }
  }

  // ---------- one call ----------

  lemma PostsOne(status: Status, a: Action)
    ensures PostsOf(status, [a]) == if status.Running? && a.Post? && a.hnd.Some? then [a.hnd.value] else []
  {
    PostsPush(status, [], a);
    assert [] + [a] == [a];
  }

  /** What is asked of one call, and what can be brought by it. */
  lemma OneHeard(status: Status, a: Action)
    ensures Heard(status, [a]) == (if status.Running? then [a] else []) && multiset([a]) == multiset{a}
    ensures PostsOf(status, [a]) == if status.Running? && a.Post? && a.hnd.Some? then [a.hnd.value] else []
    ensures forall i, k :: FirstFor([a], i, k) ==> i == 0 && Asks(a, k)
  {
    HeardOne(status, a);
    PostsOne(status, a);
  }

  /** A call that has no effect but on the clock, and is not bound to have any. */
  predicate Futile(s: Snap, a: Action) {
    s.status.Stopping? || (
      && s.status.Running? && !a.Stop? && !a.Cancel? && !(a.Post? && a.hnd.Some?)
      && !(a.PostDelay? && a.hnd.Some? && a.ms >= 0)
      && ((a.Sched? || a.SchedTimeout?) && a.hnd.Some? && a.wt.Some? ==> Key(a.fd, a.wt.value) in s.io.regs))
  }

  lemma RanFutile(s: Snap, t: int, a: Action)
    requires Futile(s, a) && Ok(s) && s.now <= t
    ensures Ran(s, s.(now := t), [a])
  {
    hide Ok, AtMost, AllTaken, BroughtDelays, BroughtRegs, BroughtTimers, Brought, Effects, Heard, PostsOf, FirstFor;
    var s' := s.(now := t);
    OneHeard(s.status, a);
    OkTimers(s);
    NothingTaken(s, s', a);
    EffectsOne(s, s', a);
    var heard := Heard(s.status, [a]);
    SameDelays(s, s', heard);
    SameRegs(s, s', heard);
    BroughtParts(s, s', [a]);
  }

  lemma BroughtParts(s: Snap, s': Snap, script: seq<Action>)
    requires s.now <= s'.now && s'.sync == s.sync + PostsOf(s.status, script)
    requires
      var heard := Heard(s.status, script);
      BroughtDelays(s, s', heard) && BroughtRegs(s, s', heard, None) && BroughtTimers(s, s', heard, None)
    ensures Brought(s, s', script, None)
  {
  }

  lemma SameDelays(s: Snap, s': Snap, heard: seq<Action>)
    requires s'.delays == s.delays && s'.taken == s.taken
    requires forall a :: a in heard && a.PostDelay? && a.hnd.Some? ==> a.ms < 0
    ensures BroughtDelays(s, s', heard)
  {
    hide Tally;
    forall d: Delayed | d.ms >= 0
      ensures multiset(heard)[PostDelay(Some(d.hnd), d.ms)] == 0
    {
      assert PostDelay(Some(d.hnd), d.ms) !in heard;
    }
  }

  lemma SameRegs(s: Snap, s': Snap, heard: seq<Action>)
    requires s'.io == s.io && forall e :: e in s.io.timed ==> e.item.key in s.io.regs
    requires forall a, k :: a in heard && Asks(a, k) ==> k in s.io.regs
    ensures BroughtRegs(s, s', heard, None) && BroughtTimers(s, s', heard, None)
  {
  }

  lemma NothingTaken(s: Snap, s': Snap, a: Action)
    requires s'.posts == s.posts && s'.taken == s.taken && s'.regd == s.regd
    ensures AtMost(s, s', multiset{a})
    ensures !(a.Post? && a.hnd.Some?) && !(a.PostDelay? && a.hnd.Some? && a.ms >= 0) ==> AllTaken(s, s', multiset{a})
  {
    hide Tally, Registering;
  }

  lemma EffectsOne(s: Snap, s': Snap, a: Action)
    requires s'.log == s.log && (s'.status.Running? ==> !a.Cancel?)
    requires s.status.Running? ==> (s'.status.Stopping? <==> a.Stop?)
    requires AtMost(s, s', multiset{a})
    requires s'.status.Running? ==> AllTaken(s, s', multiset{a}) && forall k :: Asks(a, k) ==> k in s'.io.regs
    ensures Effects(s, s', [a])
  {
    hide AtMost, AllTaken;
    assert multiset([a]) + Made(s'.log, |s.log|) == multiset{a};
  }

  lemma OkTimers(s: Snap)
    requires Ok(s)
    ensures forall e :: e in s.io.timed ==> e.item.key in s.io.regs
  {
  }

  lemma RanPost(s: Snap, hnd: Option<Handler>, err: ErrCode)
    requires Ok(s) && err == PostResult(s.status, hnd) && (s.status.Running? || s.status.Stopping?)
    ensures
      var s' := if err == EioOk then Posted(s, hnd.value) else s;
      Ran(s, s', [Post(hnd)]) && s'.io == s.io && (s.status.Stopping? ==> s' == s)
  {
    hide Ok, AtMost, AllTaken, BroughtDelays, BroughtRegs, BroughtTimers, Brought, Effects, Heard, PostsOf, FirstFor;
    var a := Post(hnd);
    if err == EioOk {
      var s' := Posted(s, hnd.value);
      OneHeard(s.status, a);
      OkTimers(s);
      PostedTaken(s, hnd.value);
      EffectsOne(s, s', a);
      SameDelays(s, s', [a]);
      SameRegs(s, s', [a]);
      BroughtParts(s, s', [a]);
    } else {
      RanFutile(s, s.now, a);
    }
  }

  lemma PostedTaken(s: Snap, h: Handler)
    ensures AtMost(s, Posted(s, h), multiset{Post(Some(h))}) && AllTaken(s, Posted(s, h), multiset{Post(Some(h))})
  {
    hide Tally, Registering;
    assert multiset(s.posts + [h]) == multiset(s.posts) + multiset{h};
  }

  lemma RanDelay(s: Snap, t: int, hnd: Option<Handler>, ms: int, err: ErrCode)
    requires Ok(s) && err == PostDelayResult(s.status, hnd, ms) && (s.status.Running? || s.status.Stopping?)
    requires s.now <= t
    ensures
      var s1 := s.(now := t);
      var s' := if err == EioOk then Entered(s1, Entry(t + ms, Delayed(hnd.value, ms))) else s1;
      Ran(s, s', [PostDelay(hnd, ms)]) && s'.io == s.io && (s.status.Stopping? ==> s' == s1)
  {
    hide Ok, Push, HeapOrdered, AtMost, AllTaken, BroughtDelays, BroughtRegs, BroughtTimers, Brought, Effects, Heard,
      PostsOf, FirstFor;
    var a := PostDelay(hnd, ms);
    if err == EioOk {
      var e := Entry(t + ms, Delayed(hnd.value, ms));
      var s' := Entered(s.(now := t), e);
      OneHeard(s.status, a);
      OkTimers(s);
      DelaysHeap(s);
      EnteredTaken(s, t, hnd.value, ms);
      EffectsOne(s, s', a);
      SameRegs(s, s', [a]);
      BroughtParts(s, s', [a]);
    } else {
      RanFutile(s, t, a);
    }
  }

  lemma EnteredTaken(s: Snap, t: int, h: Handler, ms: int)
    requires HeapOrdered(s.delays) && ms >= 0 && s.now <= t
    ensures
      var s', a := Entered(s.(now := t), Entry(t + ms, Delayed(h, ms))), PostDelay(Some(h), ms);
      AtMost(s, s', multiset{a}) && AllTaken(s, s', multiset{a}) && BroughtDelays(s, s', [a])
  {
    hide Push, HeapOrdered, Tally, Registering;
    var e, a := Entry(t + ms, Delayed(h, ms)), PostDelay(Some(h), ms);
    PushCorrect(s.delays, e);
    forall x | x in Push(s.delays, e)
      ensures x in s.delays || x == e
    {
      assert x in multiset(Push(s.delays, e));
    }
    assert multiset([a]) == multiset{a};
    forall d: Delayed
      ensures Tally(s.taken + multiset{e}, d) == Tally(s.taken, d) + multiset{a}[PostDelay(Some(d.hnd), d.ms)]
    {
      TallyAdd(s.taken, e, d);
      assert d == Delayed(d.hnd, d.ms);
    }
  }

  /** A registration that has been accepted, perhaps with a time limit. */
  lemma RanRegistered(s: Snap, s': Snap, a: Action, k: Key, h: Handler)
    requires Ok(s) && s.status.Running? && Registers(a, k, h) && k !in s.io.regs && s.now <= s'.now
    requires s' == s.(now := s'.now, io := s'.io, regd := s.regd + multiset{(k, h)}, shape := s'.shape)
    requires s'.io.regs == s.io.regs[k := h]
    requires forall e :: e in s'.io.timed <==>
      e in s.io.timed || (a.SchedTimeout? && e == Entry(s'.now + a.ms, Timer(k, a.ms, s'.now)))
    ensures Ran(s, s', [a])
  {
    hide Ok, AtMost, AllTaken, BroughtDelays, BroughtRegs, BroughtTimers, Brought, Effects, Heard, PostsOf, FirstFor;
    OneHeard(s.status, a);
    OkTimers(s);
    RegisteredTaken(s, s', a, k, h);
    EffectsOne(s, s', a);
    SameDelays(s, s', [a]);
    RegisteredRegs(s, s', a, k, h);
    RegisteredTimers(s, s', a, k, h);
    BroughtParts(s, s', [a]);
  }

  lemma RegisteredTaken(s: Snap, s': Snap, a: Action, k: Key, h: Handler)
    requires Registers(a, k, h) && s'.posts == s.posts && s'.taken == s.taken
    requires s'.regd == s.regd + multiset{(k, h)}
    ensures AtMost(s, s', multiset{a}) && AllTaken(s, s', multiset{a})
  {
    hide Tally, Registering;
    forall k', h'
      ensures s'.regd[(k', h')] <= s.regd[(k', h')] + Registering(multiset{a}, k', h')
    {
      OneRegistering(a, k', h');
    }
  }

  lemma RegisteredRegs(s: Snap, s': Snap, a: Action, k: Key, h: Handler)
    requires Registers(a, k, h) && k !in s.io.regs && s'.io.regs == s.io.regs[k := h]
    ensures BroughtRegs(s, s', [a], None)
  {
    assert a in [a];
    assert forall k' :: Asks(a, k') <==> k' == k;
  }

  lemma RegisteredTimers(s: Snap, s': Snap, a: Action, k: Key, h: Handler)
    requires Registers(a, k, h) && k !in s.io.regs && s.now <= s'.now
    requires forall e :: e in s.io.timed ==> e.item.key in s.io.regs
    requires forall e :: e in s'.io.timed <==>
      e in s.io.timed || (a.SchedTimeout? && e == Entry(s'.now + a.ms, Timer(k, a.ms, s'.now)))
    ensures BroughtTimers(s, s', [a], None)
  {
    assert a in [a];
    assert forall k' :: Asks(a, k') <==> k' == k;
    if a.SchedTimeout? {
      assert TimedBy(a, Entry(s'.now + a.ms, Timer(k, a.ms, s'.now)));
    }
  }

  lemma RanSched(s: Snap, fd: int, wt: Option<WaitType>, hnd: Option<Handler>, err: ErrCode, w: RbShape.Shape)
    requires Ok(s) && err == EnqueueResult(s.status, s.io.regs, fd, wt, hnd)
    requires s.status.Running? || s.status.Stopping?
    ensures
      var s' := if err == EioOk then Registered(s, Key(fd, wt.value), hnd.value, w) else s;
      && Ran(s, s', [Sched(fd, wt, hnd)]) && (HasPoll(s.io.polls, fd) ==> |s'.io.polls| == |s.io.polls|)
      && (s.status.Stopping? ==> err != EioOk)
  {
    hide Ok, FindPoll, Ran;
    if err == EioOk {
      var k, h := Key(fd, wt.value), hnd.value;
      EnqueuedLength(s.io, k, h);
      RanRegistered(s, Registered(s, k, h, w), Sched(fd, wt, hnd), k, h);
    } else {
      RanFutile(s, s.now, Sched(fd, wt, hnd));
    }
  }

  lemma RanTimed(s: Snap, t: int, fd: int, wt: Option<WaitType>, hnd: Option<Handler>, ms: int, err: ErrCode,
      w: RbShape.Shape)
    requires Ok(s) && err == EnqueueResult(s.status, s.io.regs, fd, wt, hnd) && s.now <= t
    requires s.status.Running? || s.status.Stopping?
    ensures
      var s' := if err == EioOk then Timed(s, t, Key(fd, wt.value), hnd.value, ms, w) else s.(now := t);
      && Ran(s, s', [SchedTimeout(fd, wt, hnd, ms)]) && (HasPoll(s.io.polls, fd) ==> |s'.io.polls| == |s.io.polls|)
  {
    hide Ok, FindPoll, Ran, Push, HeapOrdered;
    if err == EioOk {
      var k, h := Key(fd, wt.value), hnd.value;
      EnqueuedLength(s.io, k, h);
      PushedTimer(s, Entry(t + ms, Timer(k, ms, t)));
      RanRegistered(s, Timed(s, t, k, h, ms, w), SchedTimeout(fd, wt, hnd, ms), k, h);
    } else {
      RanFutile(s, t, SchedTimeout(fd, wt, hnd, ms));
    }
  }

  lemma PushedTimer(s: Snap, e: Entry<Timer>)
    requires Ok(s)
    ensures forall x :: x in Push(s.io.timed, e) <==> x in s.io.timed || x == e
  {
    hide Conserved, DelaysOk, LogOk, NoIdle, TimersDue, PollsOk, DistinctKeys, Push;
    PushCorrect(s.io.timed, e);
    forall x
      ensures x in Push(s.io.timed, e) <==> x in s.io.timed || x == e
    {
      assert x in Push(s.io.timed, e) <==> x in multiset(Push(s.io.timed, e));
    }
  }

  /** A stopping service registers nothing. */
  lemma StoppingRefuses(s: Snap, fd: int, wt: Option<WaitType>, hnd: Option<Handler>)
    requires s.status.Stopping?
    ensures EnqueueResult(s.status, s.io.regs, fd, wt, hnd) != EioOk
  {
  }

  lemma RanStop(s: Snap)
    requires Ok(s) && (s.status.Running? || s.status.Stopping?)
    ensures
      var s' := s.(status := if s.status.Running? then Stopping else s.status);
      Ran(s, s', [Stop]) && s'.io == s.io && (s.status.Stopping? ==> s' == s)
  {
    hide Ok, AtMost, AllTaken, BroughtDelays, BroughtRegs, BroughtTimers, Brought, Effects, Heard, PostsOf, FirstFor;
    var s' := s.(status := if s.status.Running? then Stopping else s.status);
    OneHeard(s.status, Stop);
    OkTimers(s);
    NothingTaken(s, s', Stop);
    EffectsOne(s, s', Stop);
    var heard := Heard(s.status, [Stop]);
    SameDelays(s, s', heard);
    SameRegs(s, s', heard);
    BroughtParts(s, s', [Stop]);
  }

  /** Calls that are refused. */
  lemma RanIdle(s: Snap, a: Action)
    requires Ok(s) && (s.status.Running? || s.status.Stopping?) && (a.Reset? || a.Run?)
    ensures Ran(s, s, [a])
  {
    hide Ok, Ran;
    RanFutile(s, s.now, a);
  }

  lemma RanCancel(s: Snap, b: Snap, fd: int, wt: WaitType)
    requires Effects(s, b, []) && s.log <= b.log
    requires StatusSteps(s.status, b.status)
    requires s.status.Running? && Key(fd, wt) in s.io.regs ==>
      |b.log| > |s.log| && b.log[|s.log|] == EventCall(s.io, Key(fd, wt), EioCancelled, 0, {}, false)
    ensures Ran(s, b, [Cancel(fd, wt)])
  {
    hide AtMost, AllTaken, Made, AllHeeded, CancelsServed, StopIn;
    var a := Cancel(fd, wt);
    assert a in [a];
    CancelTaken(s, b, Made(b.log, |s.log|), fd, wt);
    if b.status.Running? {
      CancelComplete(s, b, fd, wt);
    }
  }

  lemma CancelTaken(s: Snap, b: Snap, acts: multiset<Action>, fd: int, wt: WaitType)
    ensures
      var none: seq<Action>, all := [], multiset([Cancel(fd, wt)]) + acts;
      && (AtMost(s, b, multiset(none) + acts) ==> AtMost(s, b, all))
      && (AllTaken(s, b, multiset(none) + acts) ==> AllTaken(s, b, all))
  {
    hide Tally, Registering;
    CancelBags(acts, fd, wt);
  }

  lemma CancelComplete(s: Snap, b: Snap, fd: int, wt: WaitType)
    requires AllHeeded(s, b, []) && CancelsServed(s, b, [])
    requires Key(fd, wt) in s.io.regs ==>
      |b.log| > |s.log| && b.log[|s.log|] == EventCall(s.io, Key(fd, wt), EioCancelled, 0, {}, false)
    ensures AllHeeded(s, b, [Cancel(fd, wt)]) && CancelsServed(s, b, [Cancel(fd, wt)])
  {
    assert Key(fd, wt) in s.io.regs ==> Served(b.log, |s.log|, Key(fd, wt), s.io.regs[Key(fd, wt)]);
    forall k: Key | Cancel(k.fd, k.wt) in [Cancel(fd, wt)]
      ensures k == Key(fd, wt)
    {
      assert Cancel(k.fd, k.wt) == Cancel(fd, wt);
    }
  }

  lemma CancelBags(acts: multiset<Action>, fd: int, wt: WaitType)
    ensures
      var none: seq<Action>, all := [], multiset([Cancel(fd, wt)]) + acts;
      && multiset(none) + acts == acts
      && (forall h :: all[Post(Some(h))] == acts[Post(Some(h))])
      && (forall h, ms :: all[PostDelay(Some(h), ms)] == acts[PostDelay(Some(h), ms)])
      && forall k, h :: Registering(acts, k, h) <= Registering(all, k, h)
  {
    hide Registering;
    forall k, h
      ensures Registering(acts, k, h) <= Registering(multiset([Cancel(fd, wt)]) + acts, k, h)
    {
      RegisteringCat(multiset([Cancel(fd, wt)]), acts, k, h);
    }
  }

  /** What one call of a callback does; if it cancels something, that is called next. */
  ghost predicate Performed(a: Snap, b: Snap, act: Action) {
    && Ok(b) && Steps(a, b) && Quiet(a, b) && OnlyCancels(b.log, |a.log|, [act]) && Ran(a, b, [act])
    && Work(b) <= Work(a) + ActionWeight(act)
    && (act.Cancel? && a.status.Running? && Key(act.fd, act.evt) in a.io.regs ==>
          |b.log| > |a.log| && b.log[|a.log|] == EventCall(a.io, Key(act.fd, act.evt), EioCancelled, 0, {}, false))
  }

  /** These calls, one after the other. */
  ghost predicate Performs(a: Snap, b: Snap, script: seq<Action>)
    decreases |script|
  {
    if script == [] then b == a
    else
      var n := |script| - 1;
      exists m :: Performs(a, m, script[..n]) && Performed(m, b, script[n])
  }

  lemma PerformsNone(s: Snap, script: seq<Action>)
    ensures Performs(s, s, script[..0])
  {
    assert script[..0] == [];
  }

  lemma PerformsNext(a: Snap, m: Snap, b: Snap, script: seq<Action>, i: nat)
    requires i < |script| && Performs(a, m, script[..i]) && Performed(m, b, script[i])
    ensures Performs(a, b, script[..i + 1])
  {
    hide Performed;
    assert script[..i + 1][..i] == script[..i];
  }

  lemma PerformedBy(a: Snap, b: Snap, act: Action)
    requires Ok(b) && Steps(a, b) && Quiet(a, b) && b.log == a.log && Ran(a, b, [act]) && !act.Cancel?
    requires Work(b) <= Work(a) + ActionWeight(act)
    ensures Performed(a, b, act)
  {
    hide Ok, Steps, Quiet, Ran, Work;
  }

  lemma PerformedCancel(a: Snap, b: Snap, fd: int, wt: WaitType)
    requires Ok(b) && Steps(a, b) && Quiet(a, b) && OnlyCancels(b.log, |a.log|, [Cancel(fd, wt)])
    requires Ran(a, b, [Cancel(fd, wt)]) && Work(b) <= Work(a)
    requires a.status.Running? && Key(fd, wt) in a.io.regs ==>
      |b.log| > |a.log| && b.log[|a.log|] == EventCall(a.io, Key(fd, wt), EioCancelled, 0, {}, false)
    ensures Performed(a, b, Cancel(fd, wt))
  {
    hide Ok, Steps, Quiet, Ran, Work, OnlyCancels;
  }

  lemma PerformedFacts(a: Snap, b: Snap, act: Action)
    requires Performed(a, b, act)
    ensures Ok(b) && Steps(a, b) && Quiet(a, b) && OnlyCancels(b.log, |a.log|, [act]) && Ran(a, b, [act])
    ensures Work(b) <= Work(a) + ActionWeight(act)
  {
  }

  // ---------- a whole script ----------

  /** The same of the first `i` calls. */
  ghost predicate RanUpTo(a: Snap, b: Snap, script: seq<Action>, i: nat)
    requires i <= |script|
  {
    Effects(a, b, script[..i]) && (NoCancels(script) ==> Brought(a, b, script[..i], None))
  }

  predicate HasTimed(script: seq<Action>) { exists a :: a in script && a.SchedTimeout? }

  lemma TimedNext(script: seq<Action>, i: nat)
    requires i < |script|
    ensures HasTimed(script[..i + 1]) <==> HasTimed(script[..i]) || script[i].SchedTimeout?
    ensures HasTimed(script[..i + 1]) ==> HasTimed(script)
    ensures script[..|script|] == script
  {
    assert script[..i + 1] == script[..i] + [script[i]];
  }

  /** The state after the first `i` calls of a callback. */
  ghost predicate Midway(s: Snap, s1: Snap, script: seq<Action>, i: nat, walking: bool) {
    && i <= |script| && (s.status.Running? || s.status.Stopping?) && Ok(s1) && Steps(s, s1)
    && (s1.status.Running? ==> s1.heldEvents == multiset{})
    && Work(s1) + ScriptWeight(script[i..]) <= Work(s) + ScriptWeight(script)
    && OnlyCancels(s1.log, |s.log|, script) && RanUpTo(s, s1, script, i)
    && (CalmScript(script, walking, s.io.polls) ==>
          s1.removed == s.removed && s1.shape == s.shape && |s1.io.polls| == |s.io.polls|)
    && (s.status.Stopping? ==> s1 == s.(now := s1.now) && (walking ==> !HasTimed(script[..i])))
  }

  lemma MidwayStarts(s: Snap, script: seq<Action>, walking: bool)
    requires Ok(s) && (s.status.Running? || s.status.Stopping?) && (s.status.Running? ==> s.heldEvents == multiset{})
    ensures Midway(s, s, script, 0, walking)
  {
    hide Ok, Steps, Work, OnlyCancels, CalmScript, Effects, Brought, ScriptWeight;
    IdleStep(s, 0);
    assert script[..0] == [] && script[0..] == script;
    EffectsRefl(s);
    NoneBrought(s);
  }

  lemma MidwayFacts(s: Snap, s1: Snap, script: seq<Action>, i: nat, walking: bool)
    requires Midway(s, s1, script, i, walking)
    ensures i <= |script| && Ok(s1) && (s1.status.Running? || s1.status.Stopping?)
    ensures s1.status.Running? ==> s1.heldEvents == multiset{}
    ensures Work(s1) + ScriptWeight(script[i..]) <= Work(s) + ScriptWeight(script)
    ensures s.status.Stopping? ==> s1.status.Stopping? && s1 == s.(now := s1.now)
    ensures i < |script| ==> ScriptWeight(script[i..]) == ActionWeight(script[i]) + ScriptWeight(script[i + 1..])
    ensures CalmScript(script, walking, s.io.polls) && i < |script| ==> Calm(script[i], walking, s1.io.polls)
  {
    hide Ok, Work, OnlyCancels, CalmScript, Calm, RanUpTo, HasTimed;
    if i < |script| {
      assert script[i..][1..] == script[i + 1..];
      if CalmScript(script, walking, s.io.polls) {
        CalmNow(s, s1, script, walking, i);
      }
    }
  }

  /** One more call. */
  lemma MidwayNext(s: Snap, s1: Snap, s2: Snap, script: seq<Action>, i: nat, walking: bool)
    requires Midway(s, s1, script, i, walking) && i < |script| && Ok(s2) && Steps(s1, s2) && Ran(s1, s2, [script[i]])
    requires Work(s2) <= Work(s1) + ActionWeight(script[i]) && OnlyCancels(s2.log, |s1.log|, [script[i]])
    requires CalmScript(script, walking, s.io.polls) ==>
      s2.removed == s1.removed && s2.shape == s1.shape && |s2.io.polls| == |s1.io.polls|
    requires s1.status.Stopping? ==> s2 == s1.(now := s2.now) && (walking ==> !script[i].SchedTimeout?)
    ensures Midway(s, s2, script, i + 1, walking)
  {
    hide Ok, Steps, Work, OnlyCancels, CalmScript, RanUpTo, Ran, HasTimed;
    assert script[i..][1..] == script[i + 1..];
    StepsTrans(s, s1, s2);
    StepsLog(s, s1);
    StepsLog(s1, s2);
    CancelsMore(s1.log, s2.log, |s.log|, script, script[i]);
    RanNext(s, s1, s2, script, i);
    TimedNext(script, i);
  }

  lemma MidwayEnds(s: Snap, s1: Snap, script: seq<Action>, walking: bool)
    requires Midway(s, s1, script, |script|, walking)
    ensures Ok(s1) && Steps(s, s1) && Quiet(s, s1) && OnlyCancels(s1.log, |s.log|, script)
    ensures Work(s1) <= Work(s) + ScriptWeight(script) && Ran(s, s1, script)
    ensures CalmScript(script, walking, s.io.polls) ==>
      s1.removed == s.removed && s1.shape == s.shape && |s1.io.polls| == |s.io.polls|
    ensures s.status.Stopping? ==> s1 == s.(now := s1.now) && (walking ==> !HasTimed(script))
  {
    hide Ok, Steps, Work, OnlyCancels, CalmScript, Effects, Brought, HasTimed;
    assert script[..|script|] == script;
  }

  lemma NoneBrought(s: Snap)
    requires Ok(s)
    ensures Brought(s, s, [], None)
  {
    hide Ok, BroughtDelays, BroughtRegs, BroughtTimers;
    OkTimers(s);
    SameDelays(s, s, []);
    SameRegs(s, s, []);
  }

  lemma RanNext(s: Snap, s1: Snap, s2: Snap, script: seq<Action>, i: nat)
    requires i < |script| && RanUpTo(s, s1, script, i) && Ran(s1, s2, [script[i]]) && Steps(s, s1) && Steps(s1, s2)
    requires OnlyCancels(s1.log, |s.log|, script)
    ensures RanUpTo(s, s2, script, i + 1)
  {
    hide Brought, OnlyCancels, Steps, Effects, NoCancels;
    StepsLog(s, s1);
    StepsLog(s1, s2);
    StepsAccounted(s, s1);
    StepsAccounted(s1, s2);
    assert script[..i + 1] == script[..i] + [script[i]];
    EffectsCat(s, s1, s2, script[..i], [script[i]]);
    EffectsStop(s, s1, script[..i]);
    if NoCancels(script) {
      OneOfNone(script, i);
      NothingInvoked(s.log, s1.log, script);
      BroughtCat(s, s1, s2, script[..i], [script[i]]);
    }
  }

  lemma EffectsStop(a: Snap, b: Snap, script: seq<Action>)
    requires Effects(a, b, script)
    ensures StopsBy(a, b, script)
  {
  }

  lemma OneOfNone(script: seq<Action>, i: nat)
    requires NoCancels(script) && i < |script|
    ensures NoCancels([script[i]])
  {
  }

  /** What a script without cancellations leaves behind, call by call. */
  lemma RanMeans(a: Snap, b: Snap, script: seq<Action>)
    requires Ran(a, b, script)
    ensures NoCancels(script) ==>
      var heard := Heard(a.status, script);
      && b.sync == a.sync + PostsOf(a.status, script)
      && (forall i, k :: FirstFor(heard, i, k) && k !in a.io.regs ==>
            k in b.io.regs && b.io.regs[k] == heard[i].hnd.value)
      && (forall d: Delayed | d.ms >= 0 ::
            Tally(b.taken, d) == Tally(a.taken, d) + multiset(heard)[PostDelay(Some(d.hnd), d.ms)])
  {
    hide NoCancels, FirstFor, Tally, Heard, PostsOf, Effects, BroughtTimers;
  }

  lemma CalmCancels(script: seq<Action>, walking: bool, polls: seq<PollFd>)
    requires CalmScript(script, walking, polls)
    ensures NoCancels(script)
  {
    forall a | a in script
      ensures !a.Cancel?
    {
      assert Calm(a, walking, polls);
    }
  }

  // ---------- the call of a registered handler ----------

  /** The invocation of the handler registered for `k`. */
  ghost predicate Called(a: Snap, b: Snap, k: Key)
    requires k in a.io.regs
  {
    Effects(a, b, []) && (NoCancels(a.io.regs[k].script) ==> Brought(a, b, a.io.regs[k].script, Some(k)))
  }

  lemma CalledOnly(a: Snap, b: Snap, k: Key)
    requires k in a.io.regs && Called(a, b, k)
    ensures Effects(a, b, [])
  {
  }

  lemma FiredCalled(s: Snap, k: Key, c: Call, b: Snap)
    requires Ok(s) && k in s.io.regs && HasPoll(s.io.polls, k.fd)
    requires c.RunEvent? && c.key == k && c.hnd == s.io.regs[k]
    requires Fired(s, k, c).log <= b.log && Ran(Fired(s, k, c), b, c.hnd.script)
    ensures Called(s, b, k)
  {
    hide Ok, HasPoll, FindPoll, DropTimer, Effects, NoCancels, Brought;
    CalledEffects(s, Fired(s, k, c), b, c);
    if NoCancels(c.hnd.script) {
      FiredBrought(s, k, c, b, c.hnd.script);
    }
  }

  lemma FiredBrought(s: Snap, k: Key, c: Call, b: Snap, script: seq<Action>)
    requires Ok(s) && k in s.io.regs && HasPoll(s.io.polls, k.fd) && Brought(Fired(s, k, c), b, script, None)
    ensures Brought(s, b, script, Some(k))
  {
    hide Ok, HasPoll, FindPoll, DropTimer, Heard, PostsOf, Asks, Tally;
    FiredTimers(s, k);
    assert forall k' :: Based(Fired(s, k, c), k', None) <==> Based(s, k', Some(k));
  }

  /** iosvc_dequeue takes out the timer of this event, and no other. */
  lemma FiredTimers(s: Snap, k: Key)
    requires Ok(s) && HasPoll(s.io.polls, k.fd)
    ensures forall e :: e in Dequeue(s.io, k).timed <==> e in s.io.timed && e.item.key != k
  {
    hide Conserved, DelaysOk, LogOk, NoIdle, TimersDue, PollsOk, HasPoll, FindPoll;
    DroppedTimer(s.io.timed, s.io.regs, k);
  }

  lemma DroppedTimer(timed: seq<Entry<Timer>>, regs: map<Key, Handler>, k: Key)
    requires TimedOk(timed, regs)
    ensures forall e :: e in DropTimer(timed, k) <==> e in timed && e.item.key != k
  {
    DropTimerKeeps(timed, regs, k);
    var j, s := FindTimer(timed, k), DropTimer(timed, k);
    forall e
      ensures e in s <==> e in timed && e.item.key != k
    {
      assert e in s <==> e in multiset(s);
      assert e in timed <==> e in multiset(timed);
    }
  }

  /** The next call is `c`, and nothing else is called but what it leads to. */
  ghost predicate Invoked(a: Snap, b: Snap, k: Key, c: Call) {
    && Steps(a, b) && |b.log| > |a.log| && b.log[|a.log|] == c && Following(b.log, |a.log|)
    && k in a.io.regs && Called(a, b, k)
  }

  lemma InvokedBy(s: Snap, k: Key, c: Call, b: Snap)
    requires Ok(s) && k in s.io.regs && HasPoll(s.io.polls, k.fd)
    requires c.RunEvent? && c.key == k && c.hnd == s.io.regs[k]
    requires Steps(s, Fired(s, k, c)) && Steps(Fired(s, k, c), b) && Ran(Fired(s, k, c), b, c.hnd.script)
    requires OnlyCancels(b.log, |s.log| + 1, c.hnd.script)
    ensures Invoked(s, b, k, c) && Called(s, b, k)
  {
    hide Ok, Steps, HasPoll, Called, Dequeue, Following, OnlyCancels, Ran;
    StepsTrans(s, Fired(s, k, c), b);
    StepsLog(Fired(s, k, c), b);
    CancelsFollow(Fired(s, k, c).log, b.log, c.hnd.script);
    FiredCalled(s, k, c, b);
  }

  lemma InvokedFacts(a: Snap, b: Snap, k: Key, c: Call)
    ensures Invoked(a, b, k, c) ==>
      && Steps(a, b) && a.log < b.log && b.log[|a.log|] == c && Following(b.log, |a.log|)
      && b.open == a.open && b.heldEvents == a.heldEvents && a.removed <= b.removed && StatusSteps(a.status, b.status)
      && k in a.io.regs && Called(a, b, k)
  {
  }

  /** What cancelling the event `k` does. */
  ghost predicate CancelDone(a: Snap, b: Snap, k: Key)
    requires k in a.io.regs
  {
    && Steps(a, b) && Effects(a, b, [])
    && |b.log| > |a.log| && b.log[|a.log|] == EventCall(a.io, k, EioCancelled, 0, {}, false)
    && OnlyCancels(b.log, |a.log|, [Cancel(k.fd, k.wt)])
  }

  /** The captured link is good as long as no descriptor came or went. */
  lemma CancelledTree(s1: Snap, s2: Snap, k: Key, c: Call)
    requires Invoked(s1, s2, k, c) && Ok(s1)
    ensures |s2.removed| == |s1.removed| ==> HasPoll(s2.io.polls, k.fd)
    ensures |s2.removed| == |s1.removed| && |s2.io.polls| == |s1.io.polls| ==> s2.shape == s1.shape
    ensures s2.open == s1.open
  {
    hide Ok, HasPoll, Called, Following;
    RegsPolled(s1, k);
    if |s2.removed| == |s1.removed| {
      StillThere(s1, s2, k.fd);
    }
  }

  lemma CancelClosed(s: Snap, s1: Snap, s2: Snap, s3: Snap, k: Key)
    requires k in s.io.regs && s1 == s.(open := s1.open) && s3.open == s.open
    requires Invoked(s1, s2, k, EventCall(s.io, k, EioCancelled, 0, {}, false)) && Steps(s2, s3.(open := s2.open))
    requires Alike(s2, s3)
    ensures CancelDone(s, s3, k)
  {
    hide Ok, Steps, Called, Following, EventCall, Effects, OnlyCancels;
    var c := EventCall(s.io, k, EioCancelled, 0, {}, false);
    InvokedFacts(s1, s2, k, c);
    CancelledCall(s.io, k);
    CancelSteps(s, s2, s3);
    CancelsFrom(s2.log, |s.log|, k);
    CalledOnly(s1, s2, k);
    EffectsAlike(s1, s2, s, s3, []);
  }

  /** Between `a` and `b` no descriptor came or went, and only types of `done` were taken from `fd`. */
  predicate Smooth(a: Snap, b: Snap, fd: int, done: set<WaitType>) {
    && |b.io.polls| == |a.io.polls| && b.removed == a.removed && b.shape == a.shape
    && forall k :: k in a.io.regs && !(k.fd == fd && k.wt in done) ==> k in b.io.regs
  }

  lemma SmoothRefl(a: Snap, fd: int)
    ensures Smooth(a, a, fd, {})
  {
  }

  lemma SmoothSame(a: Snap, b: Snap, fd: int, done: set<WaitType>)
    ensures Smooth(a, b, fd, done) ==> b.removed == a.removed && b.shape == a.shape && |b.io.polls| == |a.io.polls|
  {
  }

  /** One more type, or none. */
  lemma SmoothStage(s0: Snap, a: Snap, b: Snap, fd: int, done: set<WaitType>, wt: WaitType, done': set<WaitType>)
    requires Smooth(s0, a, fd, done) && (b == a || Smooth(a, b, fd, {wt})) && done + {wt} <= done'
    ensures Smooth(s0, b, fd, done')
  {
  }

  /** With a calm handler nothing else is taken away, and no descriptor comes or goes. */
  lemma CalledSmooth(s: Snap, k: Key, c: Call, b: Snap, walking: bool)
    requires k in s.io.regs && HasPoll(s.io.polls, k.fd) && Called(s, b, k)
    requires CalmScript(s.io.regs[k].script, walking, s.io.polls)
    requires b.removed == s.removed && b.shape == s.shape && |b.io.polls| == |Fired(s, k, c).io.polls|
    ensures Smooth(s, b, k.fd, {k.wt})
  {
    hide CalmScript, DropTimer, BroughtDelays, BroughtTimers, Effects, RegisteredBy, FirstFor;
    CalmCancels(s.io.regs[k].script, walking, s.io.polls);
    forall k' | k' in s.io.regs && !(k'.fd == k.fd && k'.wt in {k.wt})
      ensures k' in b.io.regs
    {
      assert k' != k;
    }
  }
}
