/** The counting semaphore whose waiters are handlers (src/io_semaphore.c). */
module Semaphores {
  import opened IoTypes
  import opened LoopState
  import opened EventLoop

  /** The count, the list of waiting handlers (newest first) and the handlers handed to iosvc_post so far. */
  datatype SemState = SemState(count: int, list: seq<Option<Handler>>, released: seq<Option<Handler>>)

  datatype Op = Wait(hnd: Option<Handler>) | Signal

  function Created(init: int): SemState { SemState(init, [], []) }

  function Step(s: SemState, op: Op): SemState {
    match op
    case Wait(h) =>
      if s.count > 0 then s.(count := s.count - 1, released := s.released + [h])
      else s.(list := [h] + s.list)
    case Signal =>
      if s.count < 0 || s.list == [] then s.(count := s.count + 1)
      else s.(list := s.list[1..], released := s.released + [s.list[0]])
  }

  function After(init: int, ops: seq<Op>): SemState {
    if ops == [] then Created(init) else Step(After(init, ops[..|ops| - 1]), ops[|ops| - 1])
  }

  function Waits(ops: seq<Op>): seq<Option<Handler>> {
    if ops == [] then []
    else
      var op := ops[|ops| - 1];
      Waits(ops[..|ops| - 1]) + if op.Wait? then [op.hnd] else []
  }

  lemma {:induction false} WaitsShorter(ops: seq<Op>)
    ensures |Waits(ops)| <= |ops|
  {
    if ops != [] {
      WaitsShorter(ops[..|ops| - 1]);
    }
  }

  function Min(a: int, b: int): int { if a < b then a else b }

  /** What relates the count, the waiters and the history. */
  predicate Consistent(s: SemState, init: int, waits: seq<Option<Handler>>, signals: int) {
    && s.count == init + signals - |s.released|
    && multiset(s.released) + multiset(s.list) == multiset(waits)
    && (s.count > 0 ==> s.list == [])
    && (s.count < 0 ==> s.released == [])
  }

  lemma StepConsistent(s: SemState, op: Op, init: int, waits: seq<Option<Handler>>, signals: int)
    requires Consistent(s, init, waits, signals)
    ensures
      Consistent(Step(s, op), init, waits + if op.Wait? then [op.hnd] else [],
                 signals + if op.Wait? then 0 else 1)
  {
    match op
    case Wait(h) =>
      BagWait(s.released, s.list, waits, h);
    case Signal =>
      assert waits + [] == waits;
      if s.list != [] {
        BagMove(s.released, s.list);
      }
  }

  lemma BagWait<T>(released: seq<T>, list: seq<T>, waits: seq<T>, h: T)
    requires multiset(released) + multiset(list) == multiset(waits)
    ensures multiset(released + [h]) + multiset(list) == multiset(waits + [h])
    ensures multiset(released) + multiset([h] + list) == multiset(waits + [h])
  {
  }

  lemma BagMove<T>(released: seq<T>, list: seq<T>)
    requires list != []
    ensures multiset(released + [list[0]]) + multiset(list[1..]) == multiset(released) + multiset(list)
  {
    assert list == [list[0]] + list[1..];
  }

  lemma {:induction false} RunConsistent(init: int, ops: seq<Op>)
    ensures |Waits(ops)| <= |ops| && Consistent(After(init, ops), init, Waits(ops), |ops| - |Waits(ops)|)
  {
    WaitsShorter(ops);
    if ops != [] {
      var before, op := ops[..|ops| - 1], ops[|ops| - 1];
      RunConsistent(init, before);
      StepConsistent(After(init, before), op, init, Waits(before), |before| - |Waits(before)|);
      assert Waits(before) + [] == Waits(before);
    }
  }

  lemma BagSizes<T>(a: seq<T>, b: seq<T>, c: seq<T>)
    requires multiset(a) + multiset(b) == multiset(c)
    ensures |a| + |b| == |c|
  {
    assert |multiset(a) + multiset(b)| == |multiset(a)| + |multiset(b)|;
  }

  /** For every interleaving from every initial value, negative ones included: as many handlers are released
      as there are waits and permits, no handler waits beside a positive count, and no waiter is lost. */
  lemma ReleasesExactly(init: int, ops: seq<Op>)
    ensures
      var s, waits := After(init, ops), |Waits(ops)|;
      var signals := |ops| - waits;
      && |s.released| == Min(waits, Max(0, init + signals))
      && (s.count > 0 ==> s.list == [])
      && multiset(s.released) + multiset(s.list) == multiset(Waits(ops))
  {
    RunConsistent(init, ops);
    var s := After(init, ops);
    BagSizes(s.released, s.list, Waits(ops));
  }

  lemma AllReleased(init: int, ops: seq<Op>, count: int, list: seq<Option<Handler>>, released: seq<Option<Handler>>)
    requires After(init, ops) == SemState(count, list, released)
    ensures multiset(released + list) == multiset(Waits(ops))
  {
    RunConsistent(init, ops);
  }

  // ---------- the order of release ----------

  /** When nothing is left to hand out, the handler that waits next is the first to be released, before all that
      wait already. */
  lemma NewestFirst(init: int, ops: seq<Op>, h: Option<Handler>)
    requires After(init, ops).count == 0
    ensures
      var s, s' := After(init, ops), After(init, ops + [Wait(h), Signal]);
      s'.released == s.released + [h] && s'.list == s.list && s'.count == 0
  {
    var waiting := ops + [Wait(h)];
    assert (waiting)[..|ops|] == ops;
    assert ops + [Wait(h), Signal] == waiting + [Signal] && (waiting + [Signal])[..|waiting|] == waiting;
    var s := After(init, ops);
    assert After(init, waiting).list == [h] + s.list && ([h] + s.list)[1..] == s.list;
  }

  function Reversed<T>(s: seq<T>): (r: seq<T>)
    ensures |r| == |s| && forall i :: 0 <= i < |s| ==> r[i] == s[|s| - 1 - i]
  {
    if s == [] then [] else [s[|s| - 1]] + Reversed(s[..|s| - 1])
  }

  /** `s` results from `t` by leaving elements out. */
  predicate Subsequence<T(==)>(s: seq<T>, t: seq<T>) {
    s == [] || (t != [] && (if s[0] == t[0] && Subsequence(s[1..], t[1..]) then true else Subsequence(s, t[1..])))
  }

  lemma {:induction false} SubsequenceTail<T>(s: seq<T>, t: seq<T>)
    requires s != [] && Subsequence(s, t)
    ensures Subsequence(s[1..], t)
    decreases |t|
  {
    if s[0] == t[0] && Subsequence(s[1..], t[1..]) {
      SubsequenceLonger(s[1..], t);
    } else {
      SubsequenceTail(s, t[1..]);
      SubsequenceLonger(s[1..], t);
    }
  }

  lemma {:induction false} SubsequenceLonger<T>(s: seq<T>, t: seq<T>)
    requires t != [] && Subsequence(s, t[1..])
    ensures Subsequence(s, t)
  {
  }

  /** The waiters are listed newest first: in the reverse of the order in which they came. */
  lemma {:induction false} WaitersNewestFirst(init: int, ops: seq<Op>)
    ensures Subsequence(After(init, ops).list, Reversed(Waits(ops)))
  {
    if ops != [] {
      var before, op := ops[..|ops| - 1], ops[|ops| - 1];
      WaitersNewestFirst(init, before);
      var s, waits := After(init, before), Waits(before);
      match op
      case Wait(h) =>
        assert (waits + [h])[..|waits|] == waits;
        assert Reversed(waits + [h]) == [h] + Reversed(waits);
        assert ([h] + Reversed(waits))[1..] == Reversed(waits) && ([h] + s.list)[1..] == s.list;
        if s.count > 0 {
          SubsequenceLonger(s.list, [h] + Reversed(waits));
        }
      case Signal =>
        assert waits + [] == waits;
        if s.list != [] {
          SubsequenceTail(s.list, Reversed(waits));
        }
    }
  }

  /** A wait with a permit at hand, on a service that has stopped: the permit is gone and the handler is
      neither posted nor waiting. */
  lemma PermitLost(h: Handler)
    ensures
      var s := Step(Created(1), Wait(Some(h)));
      PostResult(Done, Some(h)) == EioStopped && s.count == 0 && s.list == []
    ensures Step(Step(Created(1), Wait(Some(h))), Wait(Some(h))).list == [Some(h)]
  {
  }

  /** struct _io_sem_t */
  class Semaphore {
    const iosvc: Loop
    var semVal: int
    var handlerList: seq<Option<Handler>>

    ghost var ops: seq<Op>
    ghost const init: int
    ghost var released: seq<Option<Handler>>

    ghost predicate Valid()
      reads this
    {
      After(init, ops) == SemState(semVal, handlerList, released)
    }

    /** iosem_create */
    constructor (initVal: int, svc: Loop)
      ensures Valid() && ops == [] && init == initVal && iosvc == svc
    {
      iosvc, semVal, handlerList := svc, initVal, [];
      ops, init, released := [], initVal, [];
    }

    /** The handler is passed to iosvc_post. */
    method HandOver(hnd: Option<Handler>) returns (err: ErrCode)
      requires Ok(iosvc.View()) && iosvc.Linked()
      modifies iosvc`sync, iosvc`posts, iosvc.buf, iosvc.buf.data
      ensures iosvc.buf.data == old(iosvc.buf.data) || fresh(iosvc.buf.data)
      ensures Ok(iosvc.View()) && iosvc.Linked() && err == PostResult(iosvc.status, hnd)
      ensures iosvc.sync == old(iosvc.sync) + if err == EioOk then [hnd.value] else []
    {
      hide Ok, Loop.Linked;
      err := iosvc.Post(hnd);
    }

    /** iosem_wait.  A permit is used up even when the service refuses the handler. */
    method Wait(hnd: Option<Handler>) returns (err: ErrCode)
      requires Valid() && Ok(iosvc.View()) && iosvc.Linked()
      modifies this, iosvc`sync, iosvc`posts, iosvc.buf, iosvc.buf.data
      ensures iosvc.buf.data == old(iosvc.buf.data) || fresh(iosvc.buf.data)
      ensures Valid() && ops == old(ops) + [Op.Wait(hnd)] && Ok(iosvc.View()) && iosvc.Linked()
      ensures err == if old(semVal) > 0 then PostResult(iosvc.status, hnd) else EioOk
      ensures iosvc.sync == old(iosvc.sync) + if old(semVal) > 0 && err == EioOk then [hnd.value] else []
      ensures handlerList == if old(semVal) > 0 then old(handlerList) else [hnd] + old(handlerList)
    {
      hide Ok, Loop.Linked;
      ghost var op := Op.Wait(hnd);
      assert (ops + [op])[..|ops|] == ops;
      ops := ops + [op];
      if semVal > 0 {
        semVal := semVal - 1;
        released := released + [hnd];
        err := HandOver(hnd);
        return;
      }
      handlerList := [hnd] + handlerList;
      return EioOk;
    }

    /** iosem_signal.  The newest waiter is released first. */
    method Signal() returns (err: ErrCode)
      requires Valid() && Ok(iosvc.View()) && iosvc.Linked()
      modifies this, iosvc`sync, iosvc`posts, iosvc.buf, iosvc.buf.data
      ensures iosvc.buf.data == old(iosvc.buf.data) || fresh(iosvc.buf.data)
      ensures Valid() && ops == old(ops) + [Op.Signal] && Ok(iosvc.View()) && iosvc.Linked()
      ensures |released| == |old(released)| ==> err == EioOk && iosvc.sync == old(iosvc.sync)
      ensures |released| != |old(released)| ==>
        old(handlerList) != [] && err == PostResult(iosvc.status, old(handlerList)[0])
        && iosvc.sync == old(iosvc.sync) + if err == EioOk then [old(handlerList)[0].value] else []
    {
      hide Ok, Loop.Linked;
      ghost var op := Op.Signal;
      assert (ops + [op])[..|ops|] == ops;
      ops := ops + [op];
      if semVal < 0 || handlerList == [] {
        semVal := semVal + 1;
        return EioOk;
      }
      var hnd := handlerList[0];
      handlerList := handlerList[1..];
      released := released + [hnd];
      err := HandOver(hnd);
    }

    /** iosem_delete: every handler still waiting is posted, newest first, so that every handler ever passed
        to iosem_wait has been handed to the service exactly once. */
    method Delete()
      requires Valid() && Ok(iosvc.View()) && iosvc.Linked()
      modifies this, iosvc`sync, iosvc`posts, iosvc.buf, iosvc.buf.data
      ensures iosvc.buf.data == old(iosvc.buf.data) || fresh(iosvc.buf.data)
      ensures handlerList == [] && released == old(released + handlerList)
      ensures Ok(iosvc.View()) && iosvc.Linked()
      ensures multiset(released) == multiset(Waits(ops)) && ops == old(ops)
      ensures iosvc.sync == old(iosvc.sync) + Accepted(iosvc.status, old(handlerList))
    {
      hide Ok, Loop.Linked, Loop.View, Waits, Consistent, PostResult, After, Accepted;
      AllReleased(init, ops, semVal, handlerList, released);
      while handlerList != []
        invariant iosvc.buf.data == old(iosvc.buf.data) || fresh(iosvc.buf.data)
        invariant Ok(iosvc.View()) && iosvc.Linked() && ops == old(ops)
          && released + handlerList == old(released + handlerList)
        invariant
          iosvc.sync + Accepted(iosvc.status, handlerList)
          == old(iosvc.sync) + Accepted(iosvc.status, old(handlerList))
        decreases |handlerList|
      {
        PostNewest(iosvc.status, iosvc.sync, released, handlerList);
        var curr := handlerList[0];
        handlerList := handlerList[1..];
        var _ := HandOver(curr);
        released := released + [curr];
      }
      AcceptedNone(iosvc.status);
      assert released + [] == released && iosvc.sync + [] == iosvc.sync;
    }
  }

  lemma AcceptedNone(status: Status)
    ensures Accepted(status, []) == []
  {
  }

  lemma PostNewest(status: Status, sync: seq<Handler>, released: seq<Option<Handler>>, list: seq<Option<Handler>>)
    requires list != []
    ensures (released + [list[0]]) + list[1..] == released + list
    ensures
      var sync' := if PostResult(status, list[0]) == EioOk then sync + [list[0].value] else sync;
      sync' + Accepted(status, list[1..]) == sync + Accepted(status, list)
  {
    hide PostResult;
    assert list == [list[0]] + list[1..];
  }

  /** The handlers that iosvc_post takes in this status. */
  function Accepted(status: Status, list: seq<Option<Handler>>): seq<Handler> {
    if list == [] then []
    else (if PostResult(status, list[0]) == EioOk then [list[0].value] else []) + Accepted(status, list[1..])
  }
}
