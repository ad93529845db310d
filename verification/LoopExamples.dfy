/** Runs in which the code does not keep to what it promises. */
module LoopExamples {
  import opened IoTypes
  import opened DeadlineHeap
  import opened IoModel
  import opened LoopState
  import opened LoopRounds
  import opened LoopDispatch
  import opened LoopCalls
  import opened LoopTame
  import RbShape
  import RbInsertion
  import Registry

  // Descriptor 7 waits for reading, writing and exceptions.  poll() returns at 100 and reports priority data
  // and input; the exception handler cancels the read and schedules it again with a time limit of 5.
  const FirstRead := Handler(1, [])
  const Writer := Handler(2, [])
  const SecondRead := Handler(3, [])
  const Exceptional := Handler(4, [Cancel(7, WaitRead), SchedTimeout(7, Some(WaitRead), Some(SecondRead), 5)])

  const R := Key(7, WaitRead)
  const W := Key(7, WaitWrite)
  const X := Key(7, WaitException)

  const Reported: Flags := {PollPri, PollIn}

  function Woken(): Snap {
    Snap(Running, [], [], IoState([PollFd(7, Mask(true, true, true), Reported)],
      map[R := FirstRead, W := Writer, X := Exceptional], []),
         RbShape.Node(RbShape.Nil, RbShape.Id(1, 7), false, RbShape.Nil), 100,
         [], multiset{}, multiset{(R, FirstRead), (W, Writer), (X, Exceptional)}, [],
         [], {7}, 0, multiset{}, multiset{})
  }

  lemma WokenOk()
    ensures Ok(Woken())
  {
    hide IoInv, NoIdle, Conserved;
    WokenPolls(Woken().io);
    WokenBooks();
  }

  lemma WokenBooks()
    ensures Conserved(Woken())
  {
    hide Mask;
    var m1, m2 := map[R := FirstRead], map[R := FirstRead, W := Writer];
    var m0: map<Key, Handler> := map[];
    assert m0.Items == {};
    assert m0[R := FirstRead] == m1 && m1[W := Writer] == m2 && m2[X := Exceptional] == Woken().io.regs;
    ItemsAdd(m0, R, FirstRead);
    ItemsAdd(m1, W, Writer);
    ItemsAdd(m2, X, Exceptional);
    assert multiset(Woken().io.regs.Items) == multiset{(R, FirstRead), (W, Writer), (X, Exceptional)};
  }

  lemma WokenPolls(io: IoState)
    requires io == Woken().io
    ensures IoInv(io) && NoIdle(io.polls, {7})
  {
    assert FindPoll(io.polls, 7) == 0;
    assert EventsOf(io.regs, 7) == Mask(true, true, true);
  }

  /** dispatch_ready_events calls the exception handler; its callback cancels the read ... */
  function AfterCancel(): Snap {
    var s0 := Woken();
    var s1 := if HasPoll(s0.io.polls, 7) then Fired(s0, X, EventCall(s0.io, X, EioOk, 100, Reported, false)) else s0;
    if HasPoll(s1.io.polls, 7) && R in s1.io.regs then Fired(s1, R, EventCall(s1.io, R, EioCancelled, 0, {}, false))
      else s1
  }

  lemma AfterCancelOk()
    ensures Ok(AfterCancel()) && R !in AfterCancel().io.regs && AfterCancel().io.timed == [] && AfterCancel().now == 100
  {
    hide Ok, Steps, Work, HasPoll, Dequeue;
    WokenOk();
    var s0 := Woken();
    TimerNone(s0.io);
    RegsPolled(s0, X);
    var c0 := EventCall(s0.io, X, EioOk, 100, Reported, false);
    FiredOk(s0, X, c0);
    var s1 := Fired(s0, X, c0);
    DequeuedRegs(s0.io, X);
    TimerNone(s1.io);
    CancelCall(s1, R);
    RegsPolled(s1, R);
    FiredOk(s1, R, EventCall(s1.io, R, EioCancelled, 0, {}, false));
    DequeuedRegs(s1.io, R);
  }

  lemma DequeuedRegs(io: IoState, k: Key)
    requires HasPoll(io.polls, k.fd) && io.timed == []
    ensures Dequeue(io, k).regs == io.regs - {k} && Dequeue(io, k).timed == []
  {
  }

  /** ... and at 103 schedules it again; then the read is served, measured from 100: it is told 8 milliseconds
      are left of 5. */
  lemma LateRegistration()
    ensures Ok(Woken()) && Ok(AfterCancel()) && R !in AfterCancel().io.regs
    ensures
      var s := Timed(AfterCancel(), 103, R, SecondRead, 5, AfterCancel().shape);
      && Ok(s) && R in s.io.regs
      && var c := EventCall(s.io, R, EioOk, 100, Reported, false);
      && CallOk(c) && c.timer == Some(Entry(108, Timer(R, 5, 103))) && c.remaining == Some(8)
        && !InTime(c, [c.timer.value])
  {
    hide Ok, Steps, Work, HasPoll, AfterCancel, Woken, Enqueue, AddTimer;
    WokenOk();
    AfterCancelOk();
    var s2 := AfterCancel();
    TickOk(s2, 103);
    Refused(s2, 7);
    AcceptedTimed(s2, 103, R, SecondRead, 5, s2.shape);
    TimerOne(s2.io, 103);
    var s := Timed(s2, 103, R, SecondRead, 5, s2.shape);
    AnswerCall(s, R, EioOk, 100, Reported);
  }

  lemma TimerNone(io: IoState)
    requires io.timed == []
    ensures forall k: Key :: TimerFor(io, k) == None
  {
  }

  lemma TimerOne(io: IoState, since: int)
    requires io.timed == []
    ensures
      var io' := AddTimer(Enqueue(io, R, SecondRead), R, since, 5);
      R in io'.regs && TimerFor(io', R) == Some(Entry(since + 5, Timer(R, 5, since)))
  {
  }

  /** A read handler that waits for the next input on its descriptor and posts the evaluation of this one. */
  const Reading := Handler(6, [SchedTimeout(7, Some(WaitRead), Some(FirstRead), 5), Post(Some(Writer))])

  lemma ReadingIsTame()
    ensures Local(Reading, Some(7)) && Modest(Reading) && !Local(Exceptional, Some(7))
  {
    assert Local(FirstRead, Some(7)) && Modest(FirstRead) && Local(Writer, None) && Modest(Writer);
    assert !LocalCall(Exceptional.script[0], Some(7));
  }

  // At 60 a read whose time was over at 50 is reported with POLLERR and nothing else.
  function Starved(): Snap {
    Snap(Running, [], [], IoState([PollFd(7, Mask(true, false, false), {PollErr})], map[R := FirstRead],
      [Entry(50, Timer(R, 10, 40))]),
         RbShape.Node(RbShape.Nil, RbShape.Id(1, 7), false, RbShape.Nil), 60,
         [], multiset{}, multiset{(R, FirstRead)}, [],
         [], {}, 0, multiset{}, multiset{})
  }

  /** Its deadline is the least of all and has passed, and it is neither dispatched nor timed out. */
  lemma StarvedTimeout()
    ensures
      var s := Starved();
      && Ok(s) && AtRest(s) && NextDeadline(s.delays, s.io.timed) == (50, true) && s.now == 60
      && NothingCalled(s.io.polls) && !Expired(s)
  {
    hide IoInv, NoIdle, Conserved;
    var s := Starved();
    StarvedPolls(s.io);
    StarvedBooks();
    assert FindPoll(s.io.polls, 7) == 0;
    assert PollErr in {PollErr} * TopMask(WaitRead);
  }

  lemma StarvedPolls(io: IoState)
    requires io == Starved().io
    ensures IoInv(io) && NoIdle(io.polls, {})
  {
    assert FindPoll(io.polls, 7) == 0;
    assert EventsOf(io.regs, 7) == Mask(true, false, false);
  }

  lemma StarvedBooks()
    ensures Conserved(Starved())
  {
    hide Mask;
    var m0: map<Key, Handler> := map[];
    assert m0.Items == {};
    ItemsAdd(m0, R, FirstRead);
    assert m0[R := FirstRead] == Starved().io.regs;
    assert multiset(Starved().io.regs.Items) == multiset{(R, FirstRead)};
  }

  /** With a negative deadline on top, removing the other one of two entries loses the one on top instead. */
  lemma NegativeDeadline()
    ensures
      var s := [Entry(-5, 0), Entry(-3, 1)];
      HeapOrdered(s) && RemoveAt(s, 1) == [Entry(-1, 1)]
  {
    var s1 := [Entry(-5, 0), Entry(-1, 1)];
    assert SiftUp(s1, 1) == s1;
    assert PopTop(s1) == [Entry(-1, 1)];
  }

  /** After descriptors 10 and 5, registering 7 leaves the hypotheses. */
  lemma HarmfulInsertion()
    ensures
      !Registry.InsertHarmless(
        RbShape.Node(RbShape.Node(RbShape.Nil, RbShape.Id(2, 5), true, RbShape.Nil), RbShape.Id(1, 10), false,
          RbShape.Nil), 7)
  {
    RbInsertion.MixedFirstExample();
  }
}
